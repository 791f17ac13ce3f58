/**
 * The rules popup gate: on connect a player is told whether to show the
 * server rules, depending on a localhost exemption and on whether the player
 * accepted the rules within the last 60 days; accepting records the time.
 *
 * DateTime values are ticks of 100 ns. The database, the config variables,
 * the loopback test, the clock and the player sessions are inputs; sent
 * messages and admin log entries are recorded in sequences.
 */
module Rules {
  import opened Wrappers

  type DateTime = int
  type NetUserId = nat

  const TicksPerDay: int := 864_000_000_000
  /** TimeSpan.FromDays(60) in ticks. */
  const RulesValidity: int := 60 * TicksPerDay

  /** The latest read time that no longer counts as recent at `now`: exactly 60 whole days back. */
  function LastValidReadTime(now: DateTime): (t: DateTime)
    ensures t < now
    ensures (now - t) % TicksPerDay == 0 && (now - t) / TicksPerDay == 60
  {
    now - RulesValidity
  }

  /** A loopback connection is exempt only when the RulesExemptLocal flag is also set. */
  function IsLocalhost(isLoopback: bool, exemptLocal: bool): bool
  {
    isLoopback && exemptLocal
  }

  /**
   * The player read the rules recently: a read is recorded and fewer than 60
   * days have passed since it. With no record there is no cooldown.
   */
  function HasCooldown(lastRead: Option<DateTime>, now: DateTime): (r: bool)
    ensures r <==> lastRead.Some? && now - lastRead.value < RulesValidity
  {
    match lastRead
    case None => false
    case Some(t) => t > LastValidReadTime(now)
  }

  /** The configuration variables the gate reads. */
  datatype RulesConfig = RulesConfig(exemptLocal: bool, waitTime: real, rulesFile: string)

  /** The connecting channel: the player and whether its remote address is a loopback address. */
  datatype NetChannel = NetChannel(userId: NetUserId, isLoopback: bool)

  datatype SendRulesInformationMessage =
    SendRulesInformationMessage(popupTime: real, coreRules: string, shouldShowRules: bool)

  /** The message OnConnected sends, given what the database holds for the player. */
  function ConnectMessage(cfg: RulesConfig, channel: NetChannel, lastRead: Option<DateTime>, now: DateTime)
    : (msg: SendRulesInformationMessage)
    ensures msg.shouldShowRules <==>
      !(channel.isLoopback && cfg.exemptLocal) &&
      (lastRead.None? || now - lastRead.value >= RulesValidity)
    ensures channel.isLoopback && cfg.exemptLocal ==> !msg.shouldShowRules
    ensures msg.popupTime == cfg.waitTime && msg.coreRules == cfg.rulesFile
  {
    var isLocalhost := IsLocalhost(channel.isLoopback, cfg.exemptLocal);
    var hasCooldown := HasCooldown(lastRead, now);
    SendRulesInformationMessage(cfg.waitTime, cfg.rulesFile, !isLocalhost && !hasCooldown)
  }

  /**
   * The exemption silences the popup only when both the loopback address and
   * the flag are present; otherwise the cooldown alone decides.
   */
  lemma LocalhostExemption(cfg: RulesConfig, channel: NetChannel, lastRead: Option<DateTime>, now: DateTime)
    ensures channel.isLoopback && cfg.exemptLocal ==> !ConnectMessage(cfg, channel, lastRead, now).shouldShowRules
    ensures !(channel.isLoopback && cfg.exemptLocal) ==>
      (ConnectMessage(cfg, channel, lastRead, now).shouldShowRules <==> !HasCooldown(lastRead, now))
    ensures !channel.isLoopback || !cfg.exemptLocal ==>
      (lastRead.None? ==> ConnectMessage(cfg, channel, lastRead, now).shouldShowRules)
  {
  }

  /** A read exactly 60 days ago gives no cooldown; one tick later it does. */
  lemma CooldownBoundary(now: DateTime)
    ensures !HasCooldown(Some(now - RulesValidity), now)
    ensures HasCooldown(Some(now - RulesValidity + 1), now)
  {
  }

  /** Moving the recorded read later never removes a cooldown. */
  lemma CooldownMonotoneInLastRead(t: DateTime, t': DateTime, now: DateTime)
    requires t <= t'
    ensures HasCooldown(Some(t), now) ==> HasCooldown(Some(t'), now)
  {
  }

  /** Moving the connect time later never creates a cooldown. */
  lemma CooldownExpiresOverTime(lastRead: Option<DateTime>, now: DateTime, now': DateTime)
    requires now <= now'
    ensures HasCooldown(lastRead, now') ==> HasCooldown(lastRead, now)
  {
  }

  datatype LogType = Connection
  datatype LogImpact = Extreme
  datatype AdminLogEntry = AdminLogEntry(logType: LogType, impact: LogImpact, message: string)

  /** A player session, known by the name it prints as. */
  datatype Session = Session(name: string)

  /** The "fuckrules" admin log entry: written only for a flagged message from a player with a session. */
  function FuckRulesLogEntry(fuckRules: bool, session: Option<Session>): (r: Option<AdminLogEntry>)
    ensures r.Some? <==> fuckRules && session.Some?
    ensures r.Some? ==> r.value.logType == Connection && r.value.impact == Extreme
  {
    if fuckRules && session.Some? then
      Some(AdminLogEntry(Connection, Extreme, "Player " + session.value.name + " used the fuckrules command."))
    else None
  }

  datatype RulesAcceptedMessage = RulesAcceptedMessage(userId: NetUserId, fuckRules: bool)

  /** A message sent to a channel. */
  datatype Outgoing = Outgoing(channel: NetChannel, message: SendRulesInformationMessage)

  function Lookup<K, V>(m: map<K, V>, k: K): Option<V>
  {
    if k in m then Some(m[k]) else None
  }

  /** The rules manager with the state its handlers read and write. */
  class RulesManager {
    const cfg: RulesConfig
    /** The database's last-read-rules record per player. */
    var lastReadRules: map<NetUserId, DateTime>
    var sent: seq<Outgoing>
    var adminLog: seq<AdminLogEntry>

    constructor (cfg: RulesConfig, lastReadRules: map<NetUserId, DateTime>)
      ensures this.cfg == cfg && this.lastReadRules == lastReadRules && sent == [] && adminLog == []
    {
      this.cfg := cfg;
      this.lastReadRules := lastReadRules;
      sent := [];
      adminLog := [];
    }

    /** OnConnected: send the player the rules message; nothing else changes. */
    method OnConnected(e: NetChannel, now: DateTime)
      modifies this`sent
      ensures sent == old(sent) + [Outgoing(e, ConnectMessage(cfg, e, Lookup(lastReadRules, e.userId), now))]
    {
      var lastRead := Lookup(lastReadRules, e.userId);
      sent := sent + [Outgoing(e, ConnectMessage(cfg, e, lastRead, now))];
    }

    /** OnRulesAccepted: record `now` as the player's read time and maybe write the admin log entry. */
    method OnRulesAccepted(message: RulesAcceptedMessage, now: DateTime, sessions: map<NetUserId, Session>)
      modifies this`lastReadRules, this`adminLog
      ensures lastReadRules == old(lastReadRules)[message.userId := now]
      ensures adminLog == match FuckRulesLogEntry(message.fuckRules, Lookup(sessions, message.userId))
                          case Some(entry) => old(adminLog) + [entry]
                          case None => old(adminLog)
    {
      lastReadRules := lastReadRules[message.userId := now];
      var entry := FuckRulesLogEntry(message.fuckRules, Lookup(sessions, message.userId));
      if entry.Some? {
        adminLog := adminLog + [entry.value];
      }
    }
  }

  /** Accepting at t and connecting at t' with t' - 60 days < t: the rules are not shown. */
  method AcceptThenConnect(m: RulesManager, channel: NetChannel, fuckRules: bool,
                           sessions: map<NetUserId, Session>, t: DateTime, t': DateTime)
    requires t' - RulesValidity < t
    modifies m
    ensures Lookup(m.lastReadRules, channel.userId) == Some(t)
    ensures |m.sent| == |old(m.sent)| + 1 && !m.sent[|m.sent| - 1].message.shouldShowRules
  {
    m.OnRulesAccepted(RulesAcceptedMessage(channel.userId, fuckRules), t, sessions);
    m.OnConnected(channel, t');
  }
}
