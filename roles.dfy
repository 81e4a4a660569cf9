/** Role assignment: which host becomes the primary server, which ones join
    as additional servers and which ones join as workers (agents), with the
    ordinal each one is announced under. */
module Roles {

  datatype Role =
    | Primary                          // "primary server 1"
    | AdditionalServer(ordinal: nat)   // "additional server: <ordinal>"
    | Worker(ordinal: nat)             // "worker: <ordinal>"
  {
    predicate IsServer() {
      !Worker?
    }
  }

  function Min(a: nat, b: nat): nat {
    if a <= b then a else b
  }

  /** The number of servers the plan ends up with when hosts are plentiful:
      a `servers` setting of zero or less still yields the primary. */
  function ClampedServers(servers: int): (m: nat)
    ensures m >= 1 && servers <= m
    ensures servers >= 1 ==> m == servers
    ensures servers < 1 ==> m == 1
  {
    if servers >= 1 then servers else 1
  }

  /** The value of the planner's `serversAdded` counter when it reaches the
      host at index `i`. */
  function ServersAdded(i: nat, servers: int): (s: nat)
    ensures s <= i
    ensures s == 0 <==> i == 0
  {
    if i == 0 then 0 else Min(i, ClampedServers(servers))
  }

  /** The role of the host at index `i`: the first host is the primary, a
      later host is an additional server exactly when its index is below
      `servers`, and every other host is a worker. */
  function RoleAt(i: nat, servers: int): (r: Role)
    ensures r.Primary? <==> i == 0
    ensures r.AdditionalServer? <==> 0 < i < servers
    ensures r.Worker? <==> 0 < i && servers <= i
    ensures r.AdditionalServer? ==> r.ordinal >= 2
    ensures r.Worker? ==> r.ordinal >= 1
  {
    if i == 0 then Primary
    else if i < servers then AdditionalServer(i + 1)
    else Worker(i + 1 - ClampedServers(servers))
  }

  /** The planner's branch tests on its counter decide the role of the host at
      index `i`, and the counter moves on the way the loop moves it. */
  lemma CounterStep(i: nat, servers: int)
    ensures var s := ServersAdded(i, servers);
      && RoleAt(i, servers) == (if s == 0 then Primary
                                else if s < servers then AdditionalServer(s + 1)
                                else Worker(i + 1 - s))
      && ServersAdded(i + 1, servers) == (if s == 0 then 1 else if s < servers then s + 1 else s)
  {
    var s := ServersAdded(i, servers);
    if i > 0 && s < servers {
      assert s == i;
    } else if i > 0 {
      assert s == ClampedServers(servers);
    }
  }

  /** No two hosts get the same role: ordinals are never reused. */
  lemma RoleAtInjective(i: nat, j: nat, servers: int)
    requires RoleAt(i, servers) == RoleAt(j, servers)
    ensures i == j
  {
  }

  /** The roles of the first `n` hosts, in order. */
  function RolesUpTo(n: nat, servers: int): (rs: seq<Role>)
    ensures |rs| == n
  {
    seq(n, i requires 0 <= i < n => RoleAt(i, servers))
  }

  /** Running state of a role assigner that keeps one counter per kind of
      node, the way a human would number them. */
  datatype Tally = Tally(roles: seq<Role>, serversAssigned: nat, workersAssigned: nat)

  /** Assign the next host from the running counters: the first host is the
      primary, further hosts are servers while fewer than `servers` have been
      assigned, the rest are workers numbered by their own counter. */
  function Assign(t: Tally, servers: int): Tally {
    if t.serversAssigned == 0 then
      Tally(t.roles + [Primary], 1, t.workersAssigned)
    else if t.serversAssigned < servers then
      Tally(t.roles + [AdditionalServer(t.serversAssigned + 1)], t.serversAssigned + 1, t.workersAssigned)
    else
      Tally(t.roles + [Worker(t.workersAssigned + 1)], t.serversAssigned, t.workersAssigned + 1)
  }

  function Tallied(n: nat, servers: int): Tally {
    if n == 0 then Tally([], 0, 0) else Assign(Tallied(n - 1, servers), servers)
  }

  /** The counter-based assigner and the closed form agree on every host,
      and its counters are the numbers of servers and workers assigned. */
  lemma {:induction false} TalliedAgrees(n: nat, servers: int)
    ensures Tallied(n, servers).roles == RolesUpTo(n, servers)
    ensures Tallied(n, servers).serversAssigned == ServersAdded(n, servers)
    ensures Tallied(n, servers).workersAssigned == n - ServersAdded(n, servers)
  {
    if n > 0 {
      TalliedAgrees(n - 1, servers);
      var t := Tallied(n - 1, servers);
      assert RolesUpTo(n, servers) == RolesUpTo(n - 1, servers) + [RoleAt(n - 1, servers)];
      if t.serversAssigned == 0 {
      } else if t.serversAssigned < servers {
        assert t.serversAssigned == n - 1;
      } else {
        assert t.serversAssigned == ClampedServers(servers);
      }
    }
  }

  function CountServers(rs: seq<Role>): (c: nat)
    ensures c <= |rs|
  {
    if |rs| == 0 then 0
    else CountServers(rs[..|rs| - 1]) + (if rs[|rs| - 1].IsServer() then 1 else 0)
  }

  function CountWorkers(rs: seq<Role>): (c: nat)
    ensures c <= |rs|
  {
    if |rs| == 0 then 0
    else CountWorkers(rs[..|rs| - 1]) + (if rs[|rs| - 1].Worker? then 1 else 0)
  }

  /** Among the first `n` hosts, min(max(servers, 1), n) are servers and the
      rest are workers. */
  lemma {:induction false} RoleCounts(n: nat, servers: int)
    ensures CountServers(RolesUpTo(n, servers)) == (if n == 0 then 0 else Min(n, ClampedServers(servers)))
    ensures CountWorkers(RolesUpTo(n, servers)) == n - CountServers(RolesUpTo(n, servers))
  {
    if n > 0 {
      RoleCounts(n - 1, servers);
      assert RolesUpTo(n, servers)[..n - 1] == RolesUpTo(n - 1, servers);
    }
  }

  /** With at least max(servers, 1) hosts, the plan reaches exactly
      max(servers, 1) servers: a `servers` setting of zero or less still
      yields the primary. */
  lemma ServersReached(n: nat, servers: int)
    requires n >= ClampedServers(servers)
    ensures CountServers(RolesUpTo(n, servers)) == ClampedServers(servers)
  {
    RoleCounts(n, servers);
  }

  /** The ordinal a host is announced under is one more than the number of
      hosts of its kind before it: servers count from 1 (the primary) and are
      numbered 2, 3, ... after it, workers are numbered 1, 2, 3, ... */
  lemma OrdinalCountsRole(i: nat, servers: int)
    ensures RoleAt(i, servers).AdditionalServer? ==>
              RoleAt(i, servers).ordinal == CountServers(RolesUpTo(i, servers)) + 1
    ensures RoleAt(i, servers).Worker? ==>
              RoleAt(i, servers).ordinal == CountWorkers(RolesUpTo(i, servers)) + 1
  {
    RoleCounts(i, servers);
  }
}
