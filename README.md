# k3sup plan — a verified model of the HA install-plan generator

`k3sup plan` reads an ordered list of hosts (`hostname`, `ip`) and a handful of
settings and prints a shell script that installs a highly available K3s
cluster. The script starts with a `#!/bin/sh` header. The first host gets a
`k3sup install --cluster` block followed by the capture of the cluster's join
token into `NODE_TOKEN`. The next hosts, while fewer than `--servers` servers
have been placed, get `k3sup join --server` blocks. Every later host gets an
agent `k3sup join` block. Optional clauses (`--tls-san`, server and agent
`--k3s-extra-args`, a trailing ` &`) appear according to the settings, and
`--limit` stops the plan after that many hosts.

This project models that generator in Dafny:

- `settings.dfy` — `Host` and the run's settings (`Config`) as plain values.
- `decimal.dfy` — the decimal text of the ordinals (Go's `%d`), with its
  inverse reading and injectivity.
- `roles.dfy` — the role and ordinal of the host at each index (`RoleAt`), an
  independent assigner that keeps a separate counter per kind of node
  (`Tallied`), and the proofs that the two agree and how many servers and
  workers a plan has.
- `templates.dfy` — the format strings, byte for byte, one function per
  `script +=` statement, and `BlockText`, the text appended for one host.
- `invocation.dfy` — a structured view of each command (verb, flag list,
  background), proved to render to exactly the template bytes; the clause
  rules are stated on this view.
- `planner.dfy` — `MakePlan`, the loop itself (a running `serversAdded`
  counter, a remembered `primaryServer`, the string accumulator and the
  limit `break`), proved equal to `Script`, the plan stated host by host.
  The plan-level properties are proved about `Script`.

Go `%s` is concatenation and `%d` is `Decimal.NatToString`. The ` \` plus
line-break continuations inside the Go raw strings are kept exactly.

The code does not clamp `--servers`: a value of zero or less still makes the
first host the primary and every other host a worker.
`Planner.NonPositiveServersLikeOne` proves that such a plan is byte for byte
the plan for `servers` = 1, and `Roles.ServersReached` that a non-empty host
list then yields exactly one server. Worker ordinals
are computed in the code as `(i+1)-serversAdded`. `Roles.TalliedAgrees`
proves that this equals an independent worker counter, because
`serversAdded` no longer changes once workers start.

## Model

| member | source | states |
|---|---|---|
| Decimal.NatToString | cmd/plan.go:128-140 | the ordinal's text is non-empty, all digits, and has no leading zero |
| Decimal.ValueOfNatToString | cmd/plan.go:128-140 | reading the printed ordinal back gives the ordinal |
| Decimal.NatToStringInjective | cmd/plan.go:128-140 | different ordinals print differently |
| Roles.ServersReached | cmd/plan.go:101-138 | with at least max(servers, 1) hosts, exactly max(servers, 1) hosts become servers; a `servers` of zero or less still yields the primary |
| Roles.ServersAdded | cmd/plan.go:125-138 | the counter before host `i` is at most `i`, and is zero exactly before the first host |
| Roles.RoleAt | cmd/plan.go:101-140 | index 0 is the primary; index `i > 0` is an additional server iff `i < servers`, else a worker; server ordinals start at 2, worker ordinals at 1 |
| Roles.CounterStep | cmd/plan.go:101-139 | the loop's tests on `serversAdded` select exactly `RoleAt`'s role and ordinal, and the counter moves to `ServersAdded(i+1)` |
| Roles.RoleAtInjective | cmd/plan.go:128-140 | no two hosts get the same role and ordinal |
| Roles.TalliedAgrees | cmd/plan.go:125-140 | an assigner with separate server and worker counters gives the same roles, and its counters match `serversAdded` and `(i+1)-serversAdded` |
| Roles.RoleCounts | cmd/plan.go:101-148 | among `n` processed hosts, min(max(servers,1), n) are servers and the rest workers |
| Roles.OrdinalCountsRole | cmd/plan.go:128-140 | an additional server is announced as one more than the servers before it, a worker as one more than the workers before it |
| Templates.AnnouncementInjective | cmd/plan.go:103-140 | different roles are announced with different `echo` lines |
| Invocation.InstallRendersCommand | cmd/plan.go:106-117 | the install template is the rendering of `install` with host, user, cluster, local path, context, and optional TLS SAN and server extra args |
| Invocation.ServerJoinRendersCommand | cmd/plan.go:130-136 | the server-join template is the rendering of `join` with host, server host, server, node token, user, optional TLS SAN and server extra args, and the background suffix |
| Invocation.WorkerJoinRendersCommand | cmd/plan.go:142-147 | the worker-join template is the rendering of `join` with host, server host, node token, user, optional agent extra args, and the background suffix |
| Invocation.BlockTextRendersCommand | cmd/plan.go:101-147 | each block is its announcement, its rendered command and, for the primary only, the token capture |
| Invocation.OnlyPrimaryInstalls | cmd/plan.go:106-117 | `install`, `--cluster`, `--local-path` and `--context` occur iff the host is the primary; the install is never backgrounded |
| Invocation.JoinsUsePrimaryAndToken | cmd/plan.go:130-147 | every join, and only a join, passes `--server-host` with the primary's address and the node token; `--server` is passed iff the host is an additional server |
| Invocation.TlsSanPresence | cmd/plan.go:73-77 | a `--tls-san` clause is passed iff the SAN is non-empty and the host is a server, and it carries that SAN |
| Invocation.ExtraArgsPresence | cmd/plan.go:89-98 | servers pass the server extra args and workers the agent extra args, each iff non-empty |
| Invocation.BackgroundPresence | cmd/plan.go:80-83 | a command is backgrounded iff `background` is set and it is a join |
| Invocation.FlagOccurs | cmd/plan.go:106-147 | the text of every flag in the list occurs in the rendered command |
| Invocation.FlagInBlockText | cmd/plan.go:106-147 | the text of every flag a block passes occurs in the block's text |
| Invocation.JoinBlockReferencesPrimary | cmd/plan.go:130-147 | the block of every server or worker join contains `--server-host` followed by the primary's address, and `--node-token "$NODE_TOKEN"` |
| Planner.MakePlan | cmd/plan.go:73-153 | the loop, with its counter, remembered primary, accumulator and limit `break`, returns exactly `Script` |
| Planner.LimitReached | cmd/plan.go:150-152 | when the loop breaks after index `i`, exactly `i + 1` hosts were to be processed |
| Planner.ScriptStartsWithHeader | cmd/plan.go:87 | every plan starts with `#!/bin/sh` and a blank line; an empty host list gives exactly that |
| Planner.PlanCoversHosts | cmd/plan.go:100-152 | one block per processed host, in host order: all hosts when the limit is not positive, min(limit, n) otherwise |
| Planner.LimitIsTruncation | cmd/plan.go:150-152 | a positive limit L gives the same script as the first L hosts with no limit |
| Planner.ScriptExtends | cmd/plan.go:100-153 | whatever the limit, appending hosts only appends blocks: the shorter plan is a prefix of the longer one |
| Planner.NonPositiveServersLikeOne | cmd/plan.go:101-148 | a `servers` setting of zero or less gives byte for byte the plan for `servers` = 1 |
| Planner.PlanRoles | cmd/plan.go:101-148 | the plan's roles are the separate-counter assigner's roles; it has min(max(servers,1), processed) server blocks, the rest are workers, and only the first block is the primary |
| Planner.BlockCommand | cmd/plan.go:101-147 | each block is its announcement and its command; only the first block runs `install` and is followed by the token capture |
| Planner.JoinsReferencePrimary | cmd/plan.go:126-147 | every block after the first contains `--server-host` followed by the first block's address, and `--node-token "$NODE_TOKEN"` |
| Planner.AnnouncementsDistinct | cmd/plan.go:103-140 | no two blocks of a plan are announced with the same line |
| Planner.ExamplePlans | cmd/plan.go:100-153 | four hosts give primary, servers 2 and 3, then worker 1; with `servers` 0, workers 1 to 3; with limit 2, the primary and server 2 |

## Left out

- Command-line wiring: the cobra command, its help text and its flag defaults (cmd/plan.go:12-40, 161-175). The settings are plain inputs.
- The missing-argument error and the `--init` example output (cmd/plan.go:42-48, 180-194). They are argument handling and JSON serialisation, not plan logic.
- Reading the hosts file and decoding it as JSON (cmd/plan.go:50-62). This is file I/O and a library decoder; the model starts from the decoded `seq<Host>`.
- Printing the script (cmd/plan.go:155). Output only; `fmt.Printf("%s\n", …)` adds one more line break after the script `MakePlan` returns.
- The unused `ssh-key` flag and the external `pkg.SupportMessageShort` constant.
- Go's `int` width for `servers`, `limit` and the loop index. These are unbounded integers here; overflow would need a host list of 2^63 entries.
- `Host.hostname` is carried but never read by the plan, as in the code.
- Invocation.TlsSanPresence: states presence on the command's flag list, not as "this text does not occur" in the script, because user-supplied values (user, path, addresses) may themselves contain the clause's text. `Invocation.BlockTextRendersCommand` ties the flag list to the bytes.
- Invocation.ExtraArgsPresence: stated on the flag list for the same reason.
- Invocation.BackgroundPresence: stated on the command's background field for the same reason.
