/** The check a channel makes on its settings, and what it is worth for the keep-alive. */
module ChannelSettings {
  import opened Wrappers
  import opened FmtpMessages
  import opened Peers
  import KeepAliveExact

  const MIN_PORT := 2000
  const MAX_PORT := 65535

  datatype Settings = Settings(dataType: Text, netRole: NetRole, localName: Text, localATC: Text, remoteName: Text,
                               remoteATC: Text, intervalTs: int, intervalTr: int, intervalTi: int,
                               remoteAddress: Text, remotePort: int, localPort: int, dataEncoding: Text)

  /** The role is a free text in the source; only two texts name a role. */
  datatype NetRole = ClientText | ServerText | OtherText

  datatype SettingsError =
    | NoDataType | NoNetRole | NoLocalName | NoLocalATC | NoRemoteName | NoRemoteATC | TsNotBelowTr
    | BadLocalPort | NoRemoteAddress | BadRemotePort | NoEncoding

  predicate PortInRange(port: int) {
    MIN_PORT < port < MAX_PORT
  }

  function CheckSettings(s: Settings): (r: Option<SettingsError>) {
    if s.dataType == [] then Some(NoDataType)
    else if s.netRole != ServerText && s.netRole != ClientText then Some(NoNetRole)
    else if s.localName == [] then Some(NoLocalName)
    else if s.localATC == [] then Some(NoLocalATC)
    else if s.remoteName == [] then Some(NoRemoteName)
    else if s.remoteATC == [] then Some(NoRemoteATC)
    else if s.intervalTs >= s.intervalTr then Some(TsNotBelowTr)
    else if s.netRole == ServerText && !PortInRange(s.localPort) then Some(BadLocalPort)
    else if s.netRole == ClientText && s.remoteAddress == [] then Some(NoRemoteAddress)
    else if s.netRole == ClientText && !PortInRange(s.remotePort) then Some(BadRemotePort)
    else if s.dataEncoding == [] then Some(NoEncoding)
    else None
  }

  /** The settings break the rule that an error stands for. */
  predicate Breaks(s: Settings, e: SettingsError) {
    match e
    case NoDataType => s.dataType == []
    case NoNetRole => s.netRole == OtherText
    case NoLocalName => s.localName == []
    case NoLocalATC => s.localATC == []
    case NoRemoteName => s.remoteName == []
    case NoRemoteATC => s.remoteATC == []
    case TsNotBelowTr => s.intervalTr <= s.intervalTs
    case BadLocalPort => s.netRole == ServerText && !(2001 <= s.localPort <= 65534)
    case NoRemoteAddress => s.netRole == ClientText && s.remoteAddress == []
    case BadRemotePort => s.netRole == ClientText && !(2001 <= s.remotePort <= 65534)
    case NoEncoding => s.dataEncoding == []
  }

  /** In which order the rules are reported. */
  function Rank(e: SettingsError): (n: nat) {
    match e
    case NoDataType => 0
    case NoNetRole => 1
    case NoLocalName => 2
    case NoLocalATC => 3
    case NoRemoteName => 4
    case NoRemoteATC => 5
    case TsNotBelowTr => 6
    case BadLocalPort => 7
    case NoRemoteAddress => 8
    case BadRemotePort => 9
    case NoEncoding => 10
  }

  /** Settings pass exactly if they break no rule; otherwise the first broken rule is reported. */
  lemma CheckFindsFirstBroken(s: Settings)
    ensures CheckSettings(s) == None <==> forall e :: !Breaks(s, e)
    ensures forall e :: CheckSettings(s) == Some(e) <==>
                          Breaks(s, e) && forall f :: Breaks(s, f) ==> Rank(e) <= Rank(f)
  {
    match CheckSettings(s) {
      case None =>
      case Some(found) => assert Breaks(s, found);
    }
  }

  /** The ports of accepted settings: the one that the role uses lies strictly between 2000 and 65535. */
  lemma AcceptedSettings(s: Settings)
    requires CheckSettings(s) == None
    ensures s.intervalTs < s.intervalTr
    ensures s.netRole == ServerText ==> 2000 < s.localPort < 65535
    ensures s.netRole == ClientText ==> 2000 < s.remotePort < 65535 && s.remoteAddress != []
    ensures s.netRole != OtherText && s.localATC != [] && s.remoteATC != []
  {
  }

  /** And the check is not vacuous: what it does not look at may be anything, and there are settings that pass. */
  lemma SomeSettingsPass(name: Text, ts: int, ti: int)
    requires name != []
    ensures var client := Settings(name, ClientText, name, name, name, name, ts, ts + 1, ti, name, 8500, 0, name);
            CheckSettings(client) == None
    ensures var server := Settings(name, ServerText, name, name, name, name, ts, ts + 1, ti, [], 0, 8500, name);
            CheckSettings(server) == None
  {
  }

  function SiteOf(s: Settings): (r: Site) {
    Site(s.localATC, s.remoteATC, s.intervalTi, s.intervalTs, s.intervalTr)
  }

  function SitesOf(client: Settings, server: Settings): (r: Sites) {
    Sites(SiteOf(client), SiteOf(server))
  }

  /** Two settings that name each other and agree on the intervals, which are positive. */
  predicate Paired(client: Settings, server: Settings) {
    && client.localATC == server.remoteATC && client.remoteATC == server.localATC
    && client.intervalTs == server.intervalTs && client.intervalTr == server.intervalTr
    && client.intervalTs > 0 && client.intervalTi > 0 && server.intervalTi > 0
  }

  /**
   * What the check is for. Between paired settings and without delay Tr never runs out exactly when Ts is below
   * Tr: this is what the check demands of settings that are otherwise in order.
   */
  lemma CheckIsKeepAlive(client: Settings, server: Settings)
    requires Paired(client, server)
    ensures !KeepAliveExact.CanLose(SitesOf(client, server), 0) <==> client.intervalTs < client.intervalTr
    ensures CheckSettings(client) == None ==> !KeepAliveExact.CanLose(SitesOf(client, server), 0)
    ensures CheckSettings(client) == Some(TsNotBelowTr) ==> KeepAliveExact.CanLose(SitesOf(client, server), 0)
  {
    KeepAliveExact.KeepAliveIff(SitesOf(client, server), 0);
  }

  /** With a delay the check is too weak: any accepted equal intervals fail once the delay is half their gap. */
  lemma CheckIgnoresDelay(client: Settings, server: Settings, delay: int)
    requires Paired(client, server) && delay >= 0
    requires 2 * delay < client.intervalTi && 2 * delay < server.intervalTi
    ensures !KeepAliveExact.CanLose(SitesOf(client, server), delay) <==>
            2 * delay < client.intervalTr - client.intervalTs
  {
    KeepAliveExact.KeepAliveIff(SitesOf(client, server), delay);
  }
}
