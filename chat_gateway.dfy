/**
 * `ChatGateway`, the older gateway: a map from socket id to user id, filled
 * on a verified connection and emptied on disconnect.
 */
module ChatGateway {
  import opened Common
  import opened Sockets

  /** What `configService.get("JWT_SECRET")` yields: a string, or some other value. */
  datatype ConfigValue = StringValue(s: string) | OtherValue

  /** The configuration service; the gateway's field may never have been set. */
  datatype Config = Config(jwtSecret: ConfigValue)

  /** The decoded token; `sub` may be missing or empty (falsy). */
  datatype TokenPayload = TokenPayload(sub: Option<string>)

  /** `getJwtSecret`: the secret when it is a string; None where the source throws (also when there is no config service). */
  function GetJwtSecret(config: Option<Config>): (r: Option<string>)
    ensures r.Some? <==> config.Some? && config.value.jwtSecret.StringValue?
    ensures r.Some? ==> r.value == config.value.jwtSecret.s
  {
    match config
    case None => None
    case Some(cfg) =>
      match cfg.jwtSecret
      case StringValue(s) => Some(s)
      case OtherValue => None
  }

  /**
   * The user id `handleConnection` records for a socket, or None when it
   * disconnects the socket instead. `verify` is `jwt.verify` keyed by the
   * secret; None stands for a verification that throws.
   */
  function Admission(config: Option<Config>, verify: string -> Option<TokenPayload>): (r: Option<UserId>)
    ensures r.Some? <==> GetJwtSecret(config).Some? && verify(GetJwtSecret(config).value).Some? &&
                         Truthy(verify(GetJwtSecret(config).value).value.sub)
    ensures r.Some? ==> r == verify(GetJwtSecret(config).value).value.sub && r.value != ""
  {
    match GetJwtSecret(config)
    case None => None
    case Some(secret) =>
      match verify(secret)
      case None => None
      case Some(payload) => if Truthy(payload.sub) then payload.sub else None
  }

  /** With no configuration service at all, every connection is refused. */
  lemma NoConfigRejectsEveryone(verify: string -> Option<TokenPayload>)
    ensures Admission(None, verify).None?
  {
  }

  /**
   * `activeUsers` after `handleConnection`: an admitted socket is entered
   * under its user id (replacing an earlier entry for the same socket id);
   * a refused one leaves the map as it was.
   */
  function ActiveAfterConnection(active: map<ClientId, UserId>, c: ClientId, admitted: Option<UserId>): (r: map<ClientId, UserId>)
    ensures admitted.Some? ==> c in r && r[c] == admitted.value
    ensures admitted.None? ==> r == active
    ensures forall d :: d != c ==> (d in r <==> d in active) && (d in r ==> r[d] == active[d])
  {
    match admitted
    case Some(u) => active[c := u]
    case None => active
  }

  /** `activeUsers` after `handleDisconnect`: only this socket's entry goes. */
  function ActiveAfterDisconnect(active: map<ClientId, UserId>, c: ClientId): (r: map<ClientId, UserId>)
    ensures c !in r
    ensures forall d :: d != c ==> (d in r <==> d in active) && (d in r ==> r[d] == active[d])
  {
    active - {c}
  }

  /**
   * Connecting a new socket and then disconnecting it restores `activeUsers`,
   * whether or not the connection was admitted.
   */
  lemma ConnectThenDisconnectRestores(active: map<ClientId, UserId>, c: ClientId, admitted: Option<UserId>)
    requires c !in active
    ensures ActiveAfterDisconnect(ActiveAfterConnection(active, c, admitted), c) == active
  {
    var r := ActiveAfterDisconnect(ActiveAfterConnection(active, c, admitted), c);
    assert r.Keys == active.Keys;
  }

  class ChatGateway {
    const server: SocketServer
    var activeUsers: map<ClientId, UserId>
    var configService: Option<Config>

    constructor (server: SocketServer, configService: Option<Config>)
      ensures this.server == server && this.configService == configService && activeUsers == map[]
    {
      this.server := server;
      this.configService := configService;
      activeUsers := map[];
    }

    /**
     * `handleConnection`. The token is verified with the configured secret;
     * `verify` gives the outcome for each possible secret.
     */
    method HandleConnection(c: ClientId, verify: string -> Option<TokenPayload>)
      modifies this, server
      ensures configService == old(configService)
      ensures var u := Admission(old(configService), verify);
        && activeUsers == ActiveAfterConnection(old(activeUsers), c, u)
        && (u.Some? ==> server.Snapshot() == Admitted(old(server.Snapshot()), c))
        && (u.None? ==> server.Snapshot() == Closed(Admitted(old(server.Snapshot()), c), c))
    {
      server.Admit(c);
      var secret := GetJwtSecret(configService);
      if secret.None? {
        server.Disconnect(c);
        return;
      }
      var payload := verify(secret.value);
      if payload.None? {
        server.Disconnect(c);
        return;
      }
      var userId := payload.value.sub;
      if Truthy(userId) {
        activeUsers := activeUsers[c := userId.value];
      } else {
        server.Disconnect(c);
      }
    }

    /** `handleDisconnect`: the transport has torn the socket down; the handler deletes only this socket's entry. */
    method HandleDisconnect(c: ClientId)
      modifies this, server
      ensures configService == old(configService)
      ensures activeUsers == ActiveAfterDisconnect(old(activeUsers), c)
      ensures server.Snapshot() == TornDown(old(server.Snapshot()), c)
    {
      server.Cleanup(c);
      activeUsers := activeUsers - {c};
    }

    /** The inbound `disconnect` message: always `client.disconnect()`. */
    method HandleDisconnectRequest(c: ClientId)
      modifies server
      ensures server.Snapshot() == Closed(old(server.Snapshot()), c)
    {
      server.Disconnect(c);
    }
  }
}
