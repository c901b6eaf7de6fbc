/**
 * The endpoints, query bodies and command templates of
 * `tplink_archer/constants.py`, as written there; a template becomes a
 * function that places its arguments where the template's `{...}` fields are.
 */
module Constants {
  import opened Models

  // Endpoints, relative to `http://<router>/`.
  const StatsUrl: string := "cgi?1&5"
  const ExternalIpUrl: string := "cgi?1&1&1&5&5&5&5&5&5&5&5&5&5&5"
  const DhcpClientsUrl: string := "cgi?5"
  const WifiClientsUrl: string := "cgi?6"
  const DhcpLeasesUrl: string := DhcpClientsUrl
  const DhcpLeasesCreateUrl: string := "cgi?3"
  const DhcpLeasesDeleteUrl: string := "cgi?4"
  const DhcpLeasesToggleUrl: string := "cgi?2"
  const PortForwardingRulesUrl: string := "cgi?5&5&5&5"
  const AuthenticationUrl: string := "main/status.htm"

  // Query bodies: a table name with row keys, then the columns to read.
  const DhcpLeasesQuery: string := "[LAN_DHCP_STATIC_ADDR#0,0,0,0,0,0#0,0,0,0,0,0]0,3\r\nenable\r\nchaddr\r\nyiaddr\r\n"
  const StatsQuery: string :=
        "[WAN_DSL_INTF_CFG#1,0,0,0,0,0#0,0,0,0,0,0]0,12\r\nstatus\r\n"
      + "modulationType\r\nX_TP_AdslModulationCfg\r\nupstreamCurrRate\r\n"
      + "downstreamCurrRate\r\nX_TP_AnnexType\r\nupstreamMaxRate\r\ndownstreamMaxRate\r\n"
      + "upstreamNoiseMargin\r\ndownstreamNoiseMargin\r\nupstreamAttenuation\r\n"
      + "downstreamAttenuation\r\n[WAN_DSL_INTF_STATS_TOTAL#1,0,0,0,0,0#0,0,0,0,0,0]1,8\r\n"
      + "ATUCCRCErrors\r\nCRCErrors\r\nATUCFECErrors\r\nFECErrors\r\nSeverelyErroredSecs\r\n"
      + "X_TP_US_SeverelyErroredSecs\r\nerroredSecs\r\nX_TP_US_ErroredSecs\r\n"
  const ExternalIpQuery: string :=
        "[SYS_MODE#0,0,0,0,0,0#0,0,0,0,0,0]0,1\r\nmode\r\n[IGD#0,0,0,0,0,0#0,0,0,0,0,0]1,1\r\n"
      + "LANDeviceNumberOfEntries\r\n[IGD_DEV_INFO#0,0,0,0,0,0#0,0,0,0,0,0]2,3\r\nsoftwareVersion\r\n"
      + "hardwareVersion\r\nupTime\r\n[WAN_DSL_INTF_CFG#0,0,0,0,0,0#0,0,0,0,0,0]3,1\r\nstatus\r\n"
      + "[WAN_COMMON_INTF_CFG#0,0,0,0,0,0#0,0,0,0,0,0]4,1\r\nWANAccessType\r\n"
      + "[WAN_DSL_LINK_CFG#0,0,0,0,0,0#0,0,0,0,0,0]5,0\r\n"
      + "[WAN_IP_CONN#0,0,0,0,0,0#0,0,0,0,0,0]6,0\r\n[WAN_PPP_CONN#0,0,0,0,0,0#0,0,0,0,0,0]7,"
      + "0\r\n[WAN_L2TP_CONN#0,0,0,0,0,0#0,0,0,0,0,0]8,0\r\n"
      + "[WAN_PPTP_CONN#0,0,0,0,0,0#0,0,0,0,0,0]9,0\r\n[L2_BRIDGING_ENTRY#0,0,0,0,0,0#0,0,0,0,0,0]10,"
      + "1\r\nbridgeName\r\n "
      + "[LAN_WLAN#0,0,0,0,0,0#0,0,0,0,0,0]11,"
      + "12\r\nstatus\r\nSSID\r\nBSSID\r\nchannel\r\nautoChannelEnable\r\nstandard\r\nbeaconType\r\n "
      + "basicEncryptionModes\r\nX_TP_Bandwidth\r\npossibleDataTransmitRates\r\nWPAAuthenticationMode\r"
      + "\nIEEE11iAuthenticationMode\r\n "
      + "[LAN_WLAN_WDSBRIDGE#0,0,0,0,0,0#0,0,0,0,0,0]12,1\r\nBridgeEnable\r\n[LAN_WLAN_TASK_SCHEDULE#0,0,"
      + "0,0,0,0#0,0,0,0,0,0]13,2\r\nenable\r\nisUsrCtrl\r\n"
  const DhcpClientsQuery: string :=
        "[LAN_HOST_ENTRY#0,0,0,0,0,0#0,0,0,0,0,0]0,"
      + "4\r\nleaseTimeRemaining\r\nMACAddress\r\nhostName\r\nIPAddress\r\n "
  const Wifi2gClientsQuery: string :=
        "[LAN_WLAN_ASSOC_DEV#0,0,0,0,0,0#1,1,0,0,0,0]0,"
      + "4\r\nAssociatedDeviceMACAddress\r\nX_TP_TotalPacketsSent\r\nX_TP_TotalPacketsReceived\r"
      + "\nX_TP_HostName\r\n "
  const Wifi5gClientsQuery: string :=
        "[LAN_WLAN_ASSOC_DEV#0,0,0,0,0,0#1,2,0,0,0,0]0,"
      + "4\r\nAssociatedDeviceMACAddress\r\nX_TP_TotalPacketsSent\r\nX_TP_TotalPacketsReceived\r"
      + "\nX_TP_HostName\r\n "
  const PortForwardingRulesQuery: string :=
        "[WAN_IP_CONN_PORTMAPPING#0,0,0,0,0,0#0,0,0,0,0,0]0,0\r\n[WAN_PPP_CONN_PORTMAPPING#0,0,"
      + "0,0,0,0#0,0,0,0,0,0]1,0\r\n[WAN_L2TP_CONN_PORTMAPPING#0,0,0,0,0,0#0,0,0,0,0,0]2,"
      + "0\r\n[WAN_PPTP_CONN_PORTMAPPING#0,0,0,0,0,0#0,0,0,0,0,0]3,0\r\n "

  /** The client query for a Wi-Fi band: the 2.4 GHz one unless the band is 5 GHz. */
  function WifiClientsQuery(freq: WifiFreq): (q: string)
    ensures freq == Wifi5G ==> q == Wifi5gClientsQuery
    ensures freq != Wifi5G ==> q == Wifi2gClientsQuery
  {
    if freq == Wifi5G then Wifi5gClientsQuery else Wifi2gClientsQuery
  }

  // Command templates, split at their fields.

  const TogglePrefix: string := "[LAN_DHCP_STATIC_ADDR#"
  const ToggleMiddle: string := "#0,0,0,0,0,0]0,1\r\nenable="
  const ToggleSuffix: string := "\r\n"

  /** `TOGGLE_DHCP_LEASE_COMMAND.format(raw_identifier=raw, enabled=enabled)`. */
  function ToggleCommand(raw: string, enabled: string): string {
    TogglePrefix + raw + ToggleMiddle + enabled + ToggleSuffix
  }

  const CreateHeader: string := "[LAN_DHCP_STATIC_ADDR#0,0,0,0,0,0#1,0,0,0,0,0]0,3\r\n"

  /** `CREATE_DHCP_LEASE_COMMAND.format(mac_address=mac, ip_address=ip, enabled=enabled)`. */
  function CreateCommand(mac: string, ip: string, enabled: string): string {
    CreateHeader + "chaddr=" + mac + "\r\n" + "yiaddr=" + ip + "\r\n" + "enable=" + enabled + "\r\n"
  }

  const DeletePrefix: string := "[LAN_DHCP_STATIC_ADDR#"
  const DeleteSuffix: string := "#0,0,0,0,0,0]0,0\r\n"

  /** `DELETE_DHCP_LEASE_COMMAND.format(raw_identifier=raw)`. */
  function DeleteCommand(raw: string): string {
    DeletePrefix + raw + DeleteSuffix
  }

  /** The raw identifier a delete command addresses: the text between the template's fixed ends. */
  function DeleteTarget(cmd: string): string
    requires |cmd| >= |DeletePrefix| + |DeleteSuffix|
  {
    cmd[|DeletePrefix|..|cmd| - |DeleteSuffix|]
  }

  /** A delete command addresses exactly the raw identifier it was filled with. */
  lemma DeleteTargetOfCommand(raw: string)
    ensures |DeleteCommand(raw)| == |DeletePrefix| + |raw| + |DeleteSuffix|
    ensures DeleteTarget(DeleteCommand(raw)) == raw
  {
    var cmd := DeleteCommand(raw);
    assert cmd[|DeletePrefix|..|cmd| - |DeleteSuffix|] == raw;
  }

  /** The raw identifier and the flag a toggle command carries, for a one-character flag. */
  function ToggleTarget(cmd: string): (string, string)
    requires |cmd| >= |TogglePrefix| + |ToggleMiddle| + 1 + |ToggleSuffix|
  {
    var flagAt := |cmd| - |ToggleSuffix| - 1;
    (cmd[|TogglePrefix|..flagAt - |ToggleMiddle|], cmd[flagAt..flagAt + 1])
  }

  /** A toggle command filled with a raw identifier and a flag from `Flag` carries exactly those two. */
  lemma ToggleTargetOfCommand(raw: string, enable: bool)
    ensures |ToggleCommand(raw, Flag(enable))| == |TogglePrefix| + |raw| + |ToggleMiddle| + 1 + |ToggleSuffix|
    ensures ToggleTarget(ToggleCommand(raw, Flag(enable))) == (raw, Flag(enable))
  {
    var cmd := ToggleCommand(raw, Flag(enable));
    var flagAt := |cmd| - |ToggleSuffix| - 1;
    assert cmd[|TogglePrefix|..flagAt - |ToggleMiddle|] == raw;
    assert cmd[flagAt..flagAt + 1] == Flag(enable);
  }

  /** The flag of a create command is its third-last character: '1' exactly when the lease is to be enabled. */
  lemma CreateCommandFlag(mac: string, ip: string, enable: bool)
    ensures var cmd := CreateCommand(mac, ip, Flag(enable));
      |cmd| >= 3 && (cmd[|cmd| - 3] == '1' <==> enable)
    ensures CreateCommand(mac, ip, Flag(enable))[..|CreateHeader|] == CreateHeader
  {
    var cmd := CreateCommand(mac, ip, Flag(enable));
    assert cmd[|cmd| - 3] == Flag(enable)[0];
  }
}
