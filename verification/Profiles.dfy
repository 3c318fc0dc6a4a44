/** Cellular profiles, the settings the modem reports for them, and the match test. */
module Profiles {
  import opened Wrappers
  import opened CText
  import opened FormatText

  datatype Operation = Create | Delete | Modify | List

  datatype PdpType = PdpIPv4 | PdpPPP | PdpIPv6 | PdpIPv4OrIPv6
  datatype Authentication = NoAuthentication | Pap | Chap

  // The values libqmi hands over; everything it may add later is Other.
  datatype ModemPdpType = ModemIPv4 | ModemPPP | ModemIPv6 | ModemIPv4OrIPv6 | OtherPdp
  datatype ModemAuthentication = ModemNone | ModemPap | ModemChap | OtherAuthentication

  datatype Profile = Profile(
    id: int,
    kind: int,
    contextNumber: int,
    pdpType: PdpType,
    authentication: Authentication,
    name: string,
    apn: string,
    username: string,
    password: string,
    noRoaming: bool,
    apnDisabled: bool,
    isDefault: bool)

  // What memset (p, 0, sizeof) leaves behind.
  const BLANK := Profile(0, 0, 0, PdpIPv4, NoAuthentication, "", "", "", "", false, false, false)

  const KIND_3GPP := 0
  const NAME_SIZE := 64
  const APN_SIZE := 64
  const CREDENTIAL_SIZE := 256

  // A profile-settings reply: each getter of the reply may come back empty.
  datatype Settings = Settings(
    name: Option<string>,
    apn: Option<string>,
    pdpType: Option<ModemPdpType>,
    contextNumber: Option<Byte>,
    username: Option<string>,
    password: Option<string>,
    authentication: Option<ModemAuthentication>,
    noRoaming: Option<bool>,
    apnDisabled: Option<bool>)

  function PdpTypeOf(t: ModemPdpType): PdpType {
    match t
    case ModemIPv4 => PdpIPv4
    case ModemPPP => PdpPPP
    case ModemIPv6 => PdpIPv6
    case ModemIPv4OrIPv6 => PdpIPv4OrIPv6
    case OtherPdp => PdpIPv4
  }

  function AuthenticationOf(a: ModemAuthentication): Authentication {
    match a
    case ModemNone => NoAuthentication
    case ModemPap => Pap
    case ModemChap => Chap
    case OtherAuthentication => NoAuthentication
  }

  // Reported settings overwrite the profile, field by field; these are the ones that are no text.
  function WithValues(p: Profile, s: Settings): Profile {
    p.(
      pdpType := if s.pdpType.Some? then PdpTypeOf(s.pdpType.value) else p.pdpType,
      contextNumber := if s.contextNumber.Some? then s.contextNumber.value else p.contextNumber,
      authentication := if s.authentication.Some? then AuthenticationOf(s.authentication.value) else p.authentication,
      noRoaming := s.noRoaming.GetOr(p.noRoaming),
      apnDisabled := s.apnDisabled.GetOr(p.apnDisabled))
  }

  // The modem's default profile takes its texts as they are, the name among them.
  function WithDefaultSettings(p: Profile, s: Settings): Profile {
    WithValues(p.(
      name := if s.name.Some? then Clip(s.name.value, NAME_SIZE) else p.name,
      apn := if s.apn.Some? then Clip(s.apn.value, APN_SIZE) else p.apn,
      username := if s.username.Some? then Clip(s.username.value, CREDENTIAL_SIZE) else p.username,
      password := if s.password.Some? then Clip(s.password.value, CREDENTIAL_SIZE) else p.password), s)
  }

  // What strays into the texts of a list entry where they ask for arguments that are not there.
  datatype Stray = Stray(apn: string, username: string, password: string)

  // An entry of the profile list takes its texts as formats; its name does not come from the settings.
  function WithEntrySettings(p: Profile, s: Settings, stray: Stray): Profile {
    WithValues(p.(
      apn := if s.apn.Some? then Printed(s.apn.value, stray.apn, APN_SIZE) else p.apn,
      username := if s.username.Some? then Printed(s.username.value, stray.username, CREDENTIAL_SIZE) else p.username,
      password := if s.password.Some? then Printed(s.password.value, stray.password, CREDENTIAL_SIZE) else p.password), s)
  }

  // Same access point, credentials, PDP type and authentication.
  predicate Matches(entry: Profile, wanted: Profile) {
    && EqualIgnoringCase(entry.apn, wanted.apn)
    && entry.username == wanted.username
    && entry.password == wanted.password
    && entry.pdpType == wanted.pdpType
    && entry.authentication == wanted.authentication
  }

  // A modify request does not count the entry it is about to modify.
  predicate Collides(op: Operation, entry: Profile, wanted: Profile) {
    !(op == Modify && wanted.id == entry.id) && Matches(entry, wanted)
  }

  function FirstCollision(op: Operation, cached: seq<Profile>, wanted: Profile): (r: Option<nat>)
    ensures r.Some? ==>
              && r.value < |cached|
              && Collides(op, cached[r.value], wanted)
              && forall j :: 0 <= j < r.value ==> !Collides(op, cached[j], wanted)
    ensures r.None? ==> forall j :: 0 <= j < |cached| ==> !Collides(op, cached[j], wanted)
  {
    if cached == [] then None
    else if Collides(op, cached[0], wanted) then Some(0)
    else
      var rest := FirstCollision(op, cached[1..], wanted);
      assert forall j :: 1 <= j < |cached| ==> cached[j] == cached[1..][j - 1];
      if rest.None? then None else Some(rest.value + 1)
  }

  lemma FirstCollisionUnique(op: Operation, cached: seq<Profile>, wanted: Profile, m: nat)
    requires m < |cached| && Collides(op, cached[m], wanted)
    requires forall j :: 0 <= j < m ==> !Collides(op, cached[j], wanted)
    ensures FirstCollision(op, cached, wanted) == Some(m)
  {
    var r := FirstCollision(op, cached, wanted);
    if r.Some? {
      assert r.value <= m;
    }
  }
}
