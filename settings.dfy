/** The planner's inputs: the host list entries and the settings that the
    command line supplies once per run. */
module Settings {

  /** One machine of the hosts file; only its address is used in the plan. */
  datatype Host = Host(hostname: string, ip: string)

  /** The settings read from the flags of `k3sup plan`, as plain values.
      `servers` and `limit` are Go `int`s and may be zero or negative. */
  datatype Config = Config(
    servers: int,
    user: string,
    localPath: string,
    context: string,
    tlsSan: string,
    serverExtraArgs: string,
    agentExtraArgs: string,
    background: bool,
    limit: int)
}
