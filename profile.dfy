/** The configuration profile that `build_profile` constructs: an outer
    "Configuration" dictionary whose `PayloadContent` holds one managed Wi-Fi
    payload with a manual proxy.

    The two `uuid.uuid4()` values are parameters. The profile is modelled up
    to the dictionary handed to `plistlib.dumps`; the XML bytes are not. */
module Profile {
  import opened Wrappers
  import opened Identifier

  /** `PROXY_PORT`: the port the device is told to send its traffic to. */
  const ProxyPort: int := 8082

  const WifiIdentifierPrefix: string := "com.example.wifi."
  const ProfileIdentifierPrefix: string := "com.example.burp-proxy."
  const WifiPayloadType: string := "com.apple.wifi.managed"
  const ProfilePayloadType: string := "Configuration"
  const DisplayNameSuffix: string := " Wi-Fi"

  /** The inner payload dictionary, one field per key. */
  datatype WifiPayload = WifiPayload(
    autoJoin: bool,              // AutoJoin
    encryptionType: string,      // EncryptionType
    hiddenNetwork: bool,         // HIDDEN_NETWORK
    description: string,         // PayloadDescription
    displayName: string,         // PayloadDisplayName
    identifier: string,          // PayloadIdentifier
    payloadType: string,         // PayloadType
    uuid: string,                // PayloadUUID
    version: int,                // PayloadVersion
    proxyType: string,           // ProxyType
    proxyServer: string,         // ProxyServer
    proxyServerPort: int,        // ProxyServerPort
    ssid: string                 // SSID_STR
  )

  /** The outer profile dictionary. */
  datatype ConfigProfile = ConfigProfile(
    content: seq<WifiPayload>,   // PayloadContent
    description: string,         // PayloadDescription
    displayName: string,         // PayloadDisplayName
    identifier: string,          // PayloadIdentifier
    organization: string,        // PayloadOrganization
    payloadType: string,         // PayloadType
    uuid: string,                // PayloadUUID
    version: int                 // PayloadVersion
  )

  /** `build_profile(ssid, proxy_ip)` before serialisation, with the two fresh
      UUIDs given: `profileUuid` for the profile, `wifiUuid` for the payload. */
  function BuildProfile(alnum: Classifier, ssid: string, proxyIp: string,
                        profileUuid: string, wifiUuid: string): (p: ConfigProfile)
    ensures |p.content| == 1
    ensures p.content[0].ssid == ssid && p.content[0].proxyServer == proxyIp
    ensures p.uuid == profileUuid && p.content[0].uuid == wifiUuid
  {
    var id := ProfileIdentifier(alnum, ssid);
    ConfigProfile(
      [WifiPayload(
        true,
        "Any",
        false,
        "Configures Wi-Fi proxy settings",
        ssid + DisplayNameSuffix,
        WifiIdentifierPrefix + id,
        WifiPayloadType,
        wifiUuid,
        1,
        "Manual",
        proxyIp,
        ProxyPort,
        ssid)],
      "Installs Wi-Fi proxy settings for Burp Suite",
      "Burp Suite Wi-Fi Proxy",
      ProfileIdentifierPrefix + id,
      "Burp Proxy Setup",
      ProfilePayloadType,
      profileUuid,
      1)
  }

  // ---------------------------------------------------------------- invariant

  ghost predicate HasPrefix(prefix: string, s: string) {
    |prefix| <= |s| && s[..|prefix|] == prefix
  }

  /** What every profile this tool emits satisfies, independently of how it
      is built: one managed Wi-Fi payload with a manual proxy to `ProxyPort`,
      auto-join on, not hidden, both versions 1, and both identifiers made of
      their fixed prefix and one and the same safe identifier. */
  ghost predicate WellFormed(alnum: Classifier, p: ConfigProfile) {
    && |p.content| == 1
    && p.payloadType == ProfilePayloadType
    && p.version == 1
    && HasPrefix(ProfileIdentifierPrefix, p.identifier)
    && SafeIdentifier(alnum, p.identifier[|ProfileIdentifierPrefix|..])
    && var w := p.content[0];
       && w.payloadType == WifiPayloadType
       && w.version == 1
       && w.proxyType == "Manual"
       && w.proxyServerPort == ProxyPort
       && w.autoJoin && !w.hiddenNetwork
       && w.encryptionType == "Any"
       && w.displayName == w.ssid + DisplayNameSuffix
       && w.identifier == WifiIdentifierPrefix + p.identifier[|ProfileIdentifierPrefix|..]
  }

  /** Every built profile is well formed, whatever the network name. */
  lemma BuildProfileWellFormed(alnum: Classifier, ssid: string, proxyIp: string,
                               profileUuid: string, wifiUuid: string)
    requires AsciiAlnum(alnum)
    ensures WellFormed(alnum, BuildProfile(alnum, ssid, proxyIp, profileUuid, wifiUuid))
  {
    var p := BuildProfile(alnum, ssid, proxyIp, profileUuid, wifiUuid);
    var id := ProfileIdentifier(alnum, ssid);
    ProfileIdentifierSafe(alnum, ssid);
    assert p.identifier[|ProfileIdentifierPrefix|..] == id;
  }

  /** The fields taken from the inputs: the SSID verbatim and unsanitised,
      the display name, the proxy host and the two UUIDs. */
  lemma BuildProfileInputs(alnum: Classifier, ssid: string, proxyIp: string,
                           profileUuid: string, wifiUuid: string)
    ensures var p := BuildProfile(alnum, ssid, proxyIp, profileUuid, wifiUuid);
            && p.content[0].ssid == ssid
            && p.content[0].displayName == ssid + " Wi-Fi"
            && p.content[0].proxyServer == proxyIp
            && p.content[0].proxyServerPort == 8082
            && p.uuid == profileUuid
            && p.content[0].uuid == wifiUuid
  {
  }

  /** The identifiers: fixed prefixes followed by the sanitised network name,
      or by "wifi" when nothing of the name survives sanitising. */
  lemma BuildProfileIdentifiers(alnum: Classifier, ssid: string, proxyIp: string,
                                profileUuid: string, wifiUuid: string)
    ensures var p := BuildProfile(alnum, ssid, proxyIp, profileUuid, wifiUuid);
            var id := if Sanitize(alnum, ssid) == [] then "wifi" else Sanitize(alnum, ssid);
            && p.identifier == ProfileIdentifierPrefix + id
            && p.content[0].identifier == WifiIdentifierPrefix + id
  {
  }

  /** Apart from the two UUIDs, the profile depends only on the network name
      and the proxy host: building twice differs in nothing else. */
  lemma BuildProfileDeterministic(alnum: Classifier, ssid: string, proxyIp: string,
                                  u1: string, w1: string, u2: string, w2: string)
    ensures var p1 := BuildProfile(alnum, ssid, proxyIp, u1, w1);
            var p2 := BuildProfile(alnum, ssid, proxyIp, u2, w2);
            p2 == p1.(uuid := u2, content := [p1.content[0].(uuid := w2)])
  {
  }

  /** Network names whose sanitised forms agree give profiles with the same
      identifiers, so two such networks share identifiers (for instance
      "Office 5G" and "Office5G" when a space is not alphanumeric). */
  lemma BuildProfileIdentifiersFromSanitized(alnum: Classifier, ssid1: string, ssid2: string,
                                             proxyIp: string, u: string, w: string)
    requires Sanitize(alnum, ssid1) == Sanitize(alnum, ssid2)
    ensures var p1 := BuildProfile(alnum, ssid1, proxyIp, u, w);
            var p2 := BuildProfile(alnum, ssid2, proxyIp, u, w);
            p1.identifier == p2.identifier && p1.content[0].identifier == p2.content[0].identifier
  {
  }

  // ---------------------------------------------------------------- dictionaries

  /** The keys the two dictionaries use. */
  datatype Key =
    | AutoJoin | EncryptionType | HiddenNetwork | PayloadContent | PayloadDescription
    | PayloadDisplayName | PayloadIdentifier | PayloadOrganization | PayloadType
    | PayloadUuid | PayloadVersion | ProxyType | ProxyServer | ProxyServerPort | SsidStr

  /** The key as it is spelt in the document; devices match these verbatim. */
  function KeyName(k: Key): string {
    match k
    case AutoJoin => "AutoJoin"
    case EncryptionType => "EncryptionType"
    case HiddenNetwork => "HIDDEN_NETWORK"
    case PayloadContent => "PayloadContent"
    case PayloadDescription => "PayloadDescription"
    case PayloadDisplayName => "PayloadDisplayName"
    case PayloadIdentifier => "PayloadIdentifier"
    case PayloadOrganization => "PayloadOrganization"
    case PayloadType => "PayloadType"
    case PayloadUuid => "PayloadUUID"
    case PayloadVersion => "PayloadVersion"
    case ProxyType => "ProxyType"
    case ProxyServer => "ProxyServer"
    case ProxyServerPort => "ProxyServerPort"
    case SsidStr => "SSID_STR"
  }

  /** The key a spelling denotes, if any. */
  function KeyOf(name: string): (r: Option<Key>)
    ensures r.Some? ==> KeyName(r.value) == name
  {
    if name == "AutoJoin" then Some(AutoJoin)
    else if name == "EncryptionType" then Some(EncryptionType)
    else if name == "HIDDEN_NETWORK" then Some(HiddenNetwork)
    else if name == "PayloadContent" then Some(PayloadContent)
    else if name == "PayloadDescription" then Some(PayloadDescription)
    else if name == "PayloadDisplayName" then Some(PayloadDisplayName)
    else if name == "PayloadIdentifier" then Some(PayloadIdentifier)
    else if name == "PayloadOrganization" then Some(PayloadOrganization)
    else if name == "PayloadType" then Some(PayloadType)
    else if name == "PayloadUUID" then Some(PayloadUuid)
    else if name == "PayloadVersion" then Some(PayloadVersion)
    else if name == "ProxyType" then Some(ProxyType)
    else if name == "ProxyServer" then Some(ProxyServer)
    else if name == "ProxyServerPort" then Some(ProxyServerPort)
    else if name == "SSID_STR" then Some(SsidStr)
    else None
  }

  /** Every key's spelling is read back as that key, so no two keys share a
      spelling and no dictionary entry can shadow another. */
  lemma KeyNameRoundTrip(k: Key)
    ensures KeyOf(KeyName(k)) == Some(k)
  {
  }

  /** A property-list value, as `plistlib` accepts it. */
  datatype Plist =
    | PBool(b: bool)
    | PInt(n: int)
    | PString(s: string)
    | PArray(items: seq<Plist>)
    | PDict(entries: map<Key, Plist>)

  const PayloadKeys: set<Key> := {
    AutoJoin, EncryptionType, HiddenNetwork, PayloadDescription, PayloadDisplayName,
    PayloadIdentifier, PayloadType, PayloadUuid, PayloadVersion, ProxyType,
    ProxyServer, ProxyServerPort, SsidStr
  }

  const ProfileKeys: set<Key> := {
    PayloadContent, PayloadDescription, PayloadDisplayName, PayloadIdentifier,
    PayloadOrganization, PayloadType, PayloadUuid, PayloadVersion
  }

  /** The payload as the dictionary literal writes it. */
  function PayloadDict(w: WifiPayload): (d: Plist)
    ensures d.PDict? && d.entries.Keys == PayloadKeys
  {
    PDict(map[
      AutoJoin := PBool(w.autoJoin),
      EncryptionType := PString(w.encryptionType),
      HiddenNetwork := PBool(w.hiddenNetwork),
      PayloadDescription := PString(w.description),
      PayloadDisplayName := PString(w.displayName),
      PayloadIdentifier := PString(w.identifier),
      PayloadType := PString(w.payloadType),
      PayloadUuid := PString(w.uuid),
      PayloadVersion := PInt(w.version),
      ProxyType := PString(w.proxyType),
      ProxyServer := PString(w.proxyServer),
      ProxyServerPort := PInt(w.proxyServerPort),
      SsidStr := PString(w.ssid)
    ])
  }

  function PayloadDicts(ws: seq<WifiPayload>): (ds: seq<Plist>)
    ensures |ds| == |ws|
    ensures forall i :: 0 <= i < |ws| ==> ds[i] == PayloadDict(ws[i])
  {
    if ws == [] then [] else [PayloadDict(ws[0])] + PayloadDicts(ws[1..])
  }

  /** The whole profile as the dictionary handed to `plistlib.dumps`. */
  function ProfileDict(p: ConfigProfile): (d: Plist)
    ensures d.PDict? && d.entries.Keys == ProfileKeys
    ensures d.entries[PayloadContent] == PArray(PayloadDicts(p.content))
  {
    PDict(map[
      PayloadContent := PArray(PayloadDicts(p.content)),
      PayloadDescription := PString(p.description),
      PayloadDisplayName := PString(p.displayName),
      PayloadIdentifier := PString(p.identifier),
      PayloadOrganization := PString(p.organization),
      PayloadType := PString(p.payloadType),
      PayloadUuid := PString(p.uuid),
      PayloadVersion := PInt(p.version)
    ])
  }

  // ---------------------------------------------------------------- reading back

  function GetString(m: map<Key, Plist>, k: Key): Option<string> {
    if k in m && m[k].PString? then Some(m[k].s) else None
  }

  function GetInt(m: map<Key, Plist>, k: Key): Option<int> {
    if k in m && m[k].PInt? then Some(m[k].n) else None
  }

  function GetBool(m: map<Key, Plist>, k: Key): Option<bool> {
    if k in m && m[k].PBool? then Some(m[k].b) else None
  }

  /** Reads a payload dictionary back, as a consumer of the profile would;
      None when a key is missing or holds a value of the wrong kind. */
  function ReadPayload(d: Plist): (r: Option<WifiPayload>)
    ensures r.Some? ==> d.PDict? && GetString(d.entries, SsidStr) == Some(r.value.ssid)
  {
    if !d.PDict? then None
    else
      var m := d.entries;
      if && GetBool(m, AutoJoin).Some? && GetString(m, EncryptionType).Some?
         && GetBool(m, HiddenNetwork).Some? && GetString(m, PayloadDescription).Some?
         && GetString(m, PayloadDisplayName).Some? && GetString(m, PayloadIdentifier).Some?
         && GetString(m, PayloadType).Some? && GetString(m, PayloadUuid).Some?
         && GetInt(m, PayloadVersion).Some? && GetString(m, ProxyType).Some?
         && GetString(m, ProxyServer).Some? && GetInt(m, ProxyServerPort).Some?
         && GetString(m, SsidStr).Some?
      then Some(WifiPayload(
        GetBool(m, AutoJoin).value, GetString(m, EncryptionType).value,
        GetBool(m, HiddenNetwork).value, GetString(m, PayloadDescription).value,
        GetString(m, PayloadDisplayName).value, GetString(m, PayloadIdentifier).value,
        GetString(m, PayloadType).value, GetString(m, PayloadUuid).value,
        GetInt(m, PayloadVersion).value, GetString(m, ProxyType).value,
        GetString(m, ProxyServer).value, GetInt(m, ProxyServerPort).value,
        GetString(m, SsidStr).value))
      else None
  }

  function ReadPayloads(ds: seq<Plist>): (r: Option<seq<WifiPayload>>)
    ensures r.Some? ==> |r.value| == |ds|
  {
    if ds == [] then Some([])
    else match (ReadPayload(ds[0]), ReadPayloads(ds[1..]))
      case (Some(w), Some(ws)) => Some([w] + ws)
      case _ => None
  }

  /** Reads a whole profile dictionary back. */
  function ReadProfile(d: Plist): (r: Option<ConfigProfile>)
    ensures r.Some? ==> d.PDict? && GetString(d.entries, PayloadType) == Some(r.value.payloadType)
  {
    if !d.PDict? || PayloadContent !in d.entries || !d.entries[PayloadContent].PArray? then None
    else
      var m := d.entries;
      match ReadPayloads(m[PayloadContent].items)
      case None => None
      case Some(ws) =>
        if && GetString(m, PayloadDescription).Some? && GetString(m, PayloadDisplayName).Some?
           && GetString(m, PayloadIdentifier).Some? && GetString(m, PayloadOrganization).Some?
           && GetString(m, PayloadType).Some? && GetString(m, PayloadUuid).Some?
           && GetInt(m, PayloadVersion).Some?
        then Some(ConfigProfile(
          ws,
          GetString(m, PayloadDescription).value, GetString(m, PayloadDisplayName).value,
          GetString(m, PayloadIdentifier).value, GetString(m, PayloadOrganization).value,
          GetString(m, PayloadType).value, GetString(m, PayloadUuid).value,
          GetInt(m, PayloadVersion).value))
        else None
  }

  lemma PayloadRoundTrip(w: WifiPayload)
    ensures ReadPayload(PayloadDict(w)) == Some(w)
  {
  }

  lemma {:induction false} PayloadsRoundTrip(ws: seq<WifiPayload>)
    ensures ReadPayloads(PayloadDicts(ws)) == Some(ws)
  {
    if ws != [] {
      PayloadRoundTrip(ws[0]);
      PayloadsRoundTrip(ws[1..]);
      assert PayloadDicts(ws)[1..] == PayloadDicts(ws[1..]);
      assert [ws[0]] + ws[1..] == ws;
    }
  }

  lemma ProfileDictFields(p: ConfigProfile)
    ensures var m := ProfileDict(p).entries;
            && GetString(m, PayloadDescription) == Some(p.description)
            && GetString(m, PayloadDisplayName) == Some(p.displayName)
            && GetString(m, PayloadIdentifier) == Some(p.identifier)
            && GetString(m, PayloadOrganization) == Some(p.organization)
            && GetString(m, PayloadType) == Some(p.payloadType)
            && GetString(m, PayloadUuid) == Some(p.uuid)
            && GetInt(m, PayloadVersion) == Some(p.version)
  {
  }

  /** The dictionary encoding loses nothing: reading it back gives the profile. */
  lemma ProfileRoundTrip(p: ConfigProfile)
    ensures ReadProfile(ProfileDict(p)) == Some(p)
  {
    PayloadsRoundTrip(p.content);
    ProfileDictFields(p);
  }

  /** Reading back the document built for "TestNet" and "10.0.0.5" gives a
      "Configuration" profile with exactly one managed Wi-Fi payload. */
  lemma TestNetDocument(alnum: Classifier, profileUuid: string, wifiUuid: string)
    ensures var r := ReadProfile(ProfileDict(BuildProfile(alnum, "TestNet", "10.0.0.5", profileUuid, wifiUuid)));
            && r.Some?
            && r.value.payloadType == "Configuration"
            && |r.value.content| == 1
            && r.value.content[0].payloadType == "com.apple.wifi.managed"
  {
    ProfileRoundTrip(BuildProfile(alnum, "TestNet", "10.0.0.5", profileUuid, wifiUuid));
  }
}
