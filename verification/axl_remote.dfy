/** The call-manager's administrative (AXL) service as the writer sees it: the request
    records of the remote schema, and the remote store reduced to the keys it holds.
    Every remote operation may fail for reasons the writer cannot see (transport
    errors, server-side validation), so each one is specified by what a SUCCESS implies. */
module AxlRemote {
  import opened Wrappers

  /** A line (directory number) is identified by its pattern within a route partition. */
  datatype LineKey = LineKey(pattern: string, routePartitionName: string)

  /** One call-forwarding setting of a line. */
  datatype ForwardConfig = ForwardConfig(forwardToVoiceMail: string, callingSearchSpaceName: string)

  /** The `XLine` record sent by `addLine`. */
  datatype LineRecord = LineRecord(
    pattern: string,
    usage: string,
    routePartitionName: string,
    callForwardAll: ForwardConfig,
    callForwardBusy: ForwardConfig,
    callForwardBusyInt: ForwardConfig,
    callForwardNoAnswer: ForwardConfig,
    callForwardNoAnswerInt: ForwardConfig,
    callForwardNoCoverage: ForwardConfig,
    callForwardNoCoverageInt: ForwardConfig,
    callForwardOnFailure: ForwardConfig,
    callForwardAlternateParty: ForwardConfig,
    callForwardNotRegistered: ForwardConfig,
    callForwardNotRegisteredInt: ForwardConfig,
    alertingName: string,
    asciiAlertingName: string,
    description: string,
    voiceMailProfileName: string,
    shareLineAppearanceCssName: string)
  {
    /** The key under which the server stores this line. */
    function Key(): LineKey
    {
      LineKey(pattern, routePartitionName)
    }

    /** The ten conditional forwarding settings (everything except forward-all). */
    function ConditionalForwards(): seq<ForwardConfig>
    {
      [callForwardBusy, callForwardBusyInt, callForwardNoAnswer, callForwardNoAnswerInt,
       callForwardNoCoverage, callForwardNoCoverageInt, callForwardOnFailure,
       callForwardAlternateParty, callForwardNotRegistered, callForwardNotRegisteredInt]
    }
  }

  /** The `XDirn` reference from a phone line to a line. */
  datatype Dirn = Dirn(pattern: string, routePartitionName: string)

  /** The `XPhoneLine` association between a device and a line; unset fields are `None`. */
  datatype PhoneLine = PhoneLine(
    index: int,
    dirn: Dirn,
    lineLabel: Option<string>,
    display: Option<string>,
    displayAscii: Option<string>,
    associatedEnduser: Option<string>)

  /** The `XPhone` record sent by `addPhone`. */
  datatype PhoneRecord = PhoneRecord(
    name: string,
    description: string,
    product: string,
    model: string,
    deviceClass: string,
    protocol: string,
    commonPhoneConfigName: string,
    locationName: string,
    devicePoolName: string,
    lines: seq<PhoneLine>,
    ownerUserName: string,
    mobilityUserIdName: string,
    callingSearchSpaceName: string)

  /** The `XRemoteDestinationProfile` record sent by `addRemoteDestinationProfile`. */
  datatype ProfileRecord = ProfileRecord(
    name: string,
    description: string,
    product: string,
    model: string,
    deviceClass: string,
    protocol: string,
    protocolSide: string,
    callingSearchSpaceName: string,
    devicePoolName: string,
    lines: seq<PhoneLine>,
    callInfoPrivacyStatus: string,
    userId: string,
    rerouteCallingSearchSpaceName: string,
    primaryPhoneName: string)

  /** The `XRemoteDestination` record sent by `addRemoteDestination`. */
  datatype DestinationRecord = DestinationRecord(
    name: string,
    destination: string,
    answerTooSoonTimer: int,
    answerTooLateTimer: int,
    delayBeforeRingingCell: int,
    ownerUserId: string,
    remoteDestinationProfileName: Option<string>,
    isMobilePhone: string,
    enableMobileConnect: string,
    dualModeDeviceName: Option<string>)
  {
    /** The server accepts a remote destination tied to exactly one of a profile or a
        dual-mode device, although its schema declares both fields required. */
    predicate OwnerExclusive()
    {
      remoteDestinationProfileName.Some? != dualModeDeviceName.Some?
    }
  }

  /** One request issued to the service, in the order issued. */
  datatype Call =
    | GetUser(userid: string)
    | GetLine(key: LineKey)
    | AddLine(line: LineRecord)
    | RemoveLine(key: LineKey)
    | GetPhone(name: string)
    | AddPhone(phone: PhoneRecord)
    | RemovePhone(name: string)
    | AddProfile(profile: ProfileRecord)
    | RemoveProfile(name: string)
    | AddDestination(destination: DestinationRecord)

  /** A snapshot of what the server holds. */
  datatype Store = Store(
    users: set<string>,
    lines: set<LineKey>,
    phones: set<string>,
    profiles: set<string>,
    destinations: set<string>)

  /** The remote call-manager. Its state is the set of keys it holds per entity kind;
      `calls` records every request the writer has issued. */
  class AxlService {
    var users: set<string>
    var lines: set<LineKey>
    var phones: set<string>
    var profiles: set<string>
    var destinations: set<string>
    ghost var calls: seq<Call>

    function Snapshot(): Store
      reads this
    {
      Store(users, lines, phones, profiles, destinations)
    }

    constructor (s: Store)
      ensures Snapshot() == s && calls == []
    {
      users, lines, phones, profiles, destinations := s.users, s.lines, s.phones, s.profiles, s.destinations;
      calls := [];
    }

    /** `getUser`: answers only for a user the server holds; may fail regardless. */
    method GetUserCall(userid: string) returns (found: bool)
      modifies this
      ensures found ==> userid in users
      ensures Snapshot() == old(Snapshot())
      ensures calls == old(calls) + [GetUser(userid)]
    {
      found := *;
      found := found && userid in users;
      calls := calls + [GetUser(userid)];
    }

    /** `getLine`: answers only for a line the server holds; may fail regardless. */
    method GetLineCall(key: LineKey) returns (found: bool)
      modifies this
      ensures found ==> key in lines
      ensures Snapshot() == old(Snapshot())
      ensures calls == old(calls) + [GetLine(key)]
    {
      found := *;
      found := found && key in lines;
      calls := calls + [GetLine(key)];
    }

    /** `addLine`: succeeds only for a key not yet held, and then stores exactly that key. */
    method AddLineCall(line: LineRecord) returns (ok: bool)
      modifies this
      ensures ok ==> line.Key() !in old(lines)
      ensures Snapshot() == if ok then old(Snapshot()).(lines := old(lines) + {line.Key()}) else old(Snapshot())
      ensures calls == old(calls) + [AddLine(line)]
    {
      ok := *;
      ok := ok && line.Key() !in lines;
      if ok {
        lines := lines + {line.Key()};
      }
      calls := calls + [AddLine(line)];
    }

    /** `removeLine`: succeeds only for a key the server holds, and then drops it. */
    method RemoveLineCall(key: LineKey) returns (ok: bool)
      modifies this
      ensures ok ==> key in old(lines)
      ensures Snapshot() == if ok then old(Snapshot()).(lines := old(lines) - {key}) else old(Snapshot())
      ensures calls == old(calls) + [RemoveLine(key)]
    {
      ok := *;
      ok := ok && key in lines;
      if ok {
        lines := lines - {key};
      }
      calls := calls + [RemoveLine(key)];
    }

    /** `getPhone`: answers only for a device name the server holds; may fail regardless. */
    method GetPhoneCall(name: string) returns (found: bool)
      modifies this
      ensures found ==> name in phones
      ensures Snapshot() == old(Snapshot())
      ensures calls == old(calls) + [GetPhone(name)]
    {
      found := *;
      found := found && name in phones;
      calls := calls + [GetPhone(name)];
    }

    /** `addPhone`: succeeds only for a device name not yet held. */
    method AddPhoneCall(phone: PhoneRecord) returns (ok: bool)
      modifies this
      ensures ok ==> phone.name !in old(phones)
      ensures Snapshot() == if ok then old(Snapshot()).(phones := old(phones) + {phone.name}) else old(Snapshot())
      ensures calls == old(calls) + [AddPhone(phone)]
    {
      ok := *;
      ok := ok && phone.name !in phones;
      if ok {
        phones := phones + {phone.name};
      }
      calls := calls + [AddPhone(phone)];
    }

    /** `removePhone`: succeeds only for a device name the server holds. */
    method RemovePhoneCall(name: string) returns (ok: bool)
      modifies this
      ensures ok ==> name in old(phones)
      ensures Snapshot() == if ok then old(Snapshot()).(phones := old(phones) - {name}) else old(Snapshot())
      ensures calls == old(calls) + [RemovePhone(name)]
    {
      ok := *;
      ok := ok && name in phones;
      if ok {
        phones := phones - {name};
      }
      calls := calls + [RemovePhone(name)];
    }

    /** `addRemoteDestinationProfile`: succeeds only for a profile name not yet held. */
    method AddProfileCall(profile: ProfileRecord) returns (ok: bool)
      modifies this
      ensures ok ==> profile.name !in old(profiles)
      ensures Snapshot() == if ok then old(Snapshot()).(profiles := old(profiles) + {profile.name}) else old(Snapshot())
      ensures calls == old(calls) + [AddProfile(profile)]
    {
      ok := *;
      ok := ok && profile.name !in profiles;
      if ok {
        profiles := profiles + {profile.name};
      }
      calls := calls + [AddProfile(profile)];
    }

    /** `removeRemoteDestinationProfile`: succeeds only for a profile name the server holds. */
    method RemoveProfileCall(name: string) returns (ok: bool)
      modifies this
      ensures ok ==> name in old(profiles)
      ensures Snapshot() == if ok then old(Snapshot()).(profiles := old(profiles) - {name}) else old(Snapshot())
      ensures calls == old(calls) + [RemoveProfile(name)]
    {
      ok := *;
      ok := ok && name in profiles;
      if ok {
        profiles := profiles - {name};
      }
      calls := calls + [RemoveProfile(name)];
    }

    /** `addRemoteDestination`: succeeds only for a destination number not yet held, whose
        record names exactly one owner and, if that owner is a profile, one the server holds. */
    method AddDestinationCall(dest: DestinationRecord) returns (ok: bool)
      modifies this
      ensures ok ==> dest.destination !in old(destinations) && dest.OwnerExclusive()
      ensures ok && dest.remoteDestinationProfileName.Some? ==> dest.remoteDestinationProfileName.value in profiles
      ensures Snapshot() == if ok then old(Snapshot()).(destinations := old(destinations) + {dest.destination}) else old(Snapshot())
      ensures calls == old(calls) + [AddDestination(dest)]
    {
      ok := *;
      ok := ok && dest.destination !in destinations && dest.OwnerExclusive()
        && (dest.remoteDestinationProfileName.Some? ==> dest.remoteDestinationProfileName.value in profiles);
      if ok {
        destinations := destinations + {dest.destination};
      }
      calls := calls + [AddDestination(dest)];
    }
  }
}
