/** The provisioning layer: composes the request records for lines, phones, remote
    destination profiles and remote destinations, and issues them against the remote
    call-manager behind existence checks. */
module CucmAxlWriter {
  import opened Wrappers
  import opened Text
  import opened AxlRemote

  /** The route partition every line operation uses unless told otherwise. */
  const DefaultPartition := "Internal PAR"

  /** The device-type codes the writer knows how to name and configure. */
  const DeviceTypes: set<string> := {"CSF", "TCT", "BOT", "TAB"}

  /** Why a writer operation raised. */
  datatype WriterError =
    | LineAlreadyExists  // "Line already exists"
    | LineNotAdded       // "Line could not be added"
    | DeviceNameUnbound  // an unknown device type leaves the device name unbound
    | PhoneNotAdded      // the server's error, re-raised by deviceAdd

  /** What rdpAdd and rDestAdd return instead of raising: nothing when skipped, the
      server's reply on success, the exception object on failure. */
  datatype AddReply = NoReply | Added | ReturnedError

  /** The product and model of a device type. */
  datatype ProductModel = ProductModel(product: string, model: string)

  /** deviceGetName: the device name is the type code followed by the user name, all
      upper-cased; an unknown code binds no name, so the upper-casing raises. */
  function DeviceGetName(username: string, devicetype: string): (r: Option<string>)
    ensures r.Some? <==> devicetype in DeviceTypes
    ensures r.Some? ==> r.value == devicetype + Upper(username)
  {
    var deviceName :=
      if devicetype == "CSF" then Some("CSF" + username)
      else if devicetype == "TCT" then Some("TCT" + username)
      else if devicetype == "BOT" then Some("BOT" + username)
      else if devicetype == "TAB" then Some("TAB" + username)
      else None;
    if deviceName.None? then None
    else
      UpperAppend(devicetype, username);
      UpperOfUpper(devicetype);
      Some(Upper(deviceName.value))
  }

  /** The closed table of deviceAdd: product and model per device-type code. */
  function DeviceProductModel(devicetype: string): (r: Option<ProductModel>)
    ensures r.Some? <==> devicetype in DeviceTypes
    ensures r.Some? ==> r.value.product == r.value.model
  {
    if devicetype == "CSF" then
      Some(ProductModel("Cisco Unified Client Services Framework", "Cisco Unified Client Services Framework"))
    else if devicetype == "TCT" then
      Some(ProductModel("Cisco Dual Mode for iPhone", "Cisco Dual Mode for iPhone"))
    else if devicetype == "BOT" then
      Some(ProductModel("Cisco Dual Mode for Android", "Cisco Dual Mode for Android"))
    else if devicetype == "TAB" then
      Some(ProductModel("Cisco Jabber for Tablet", "Cisco Jabber for Tablet"))
    else None
  }

  /** Two users get the same device name of a given type exactly when their names
      agree after upper-casing: names differing only in case collide. */
  lemma DeviceNameCollision(u1: string, u2: string, devicetype: string)
    requires devicetype in DeviceTypes
    ensures DeviceGetName(u1, devicetype) == DeviceGetName(u2, devicetype) <==> Upper(u1) == Upper(u2)
  {
    var n1, n2 := DeviceGetName(u1, devicetype).value, DeviceGetName(u2, devicetype).value;
    if n1 == n2 {
      assert Upper(u1) == n1[|devicetype|..];
      assert Upper(u2) == n2[|devicetype|..];
    }
  }

  /** The line record lineAdd sends: every conditional forwarding setting forwards to
      voicemail as `vm` says, all under the same calling search space; forward-all never
      goes to voicemail; the three name fields carry the user's full name. */
  function LineRecordFor(extension: string, firstname: string, lastname: string, city: string,
                         vm: string, vmProfileName: string, partition: string, usage: string,
                         cfwCss: string): (r: LineRecord)
    ensures r.Key() == LineKey(extension, partition)
    ensures forall f <- r.ConditionalForwards() :: f == ForwardConfig(vm, cfwCss)
    ensures r.callForwardAll == ForwardConfig("False", cfwCss)
    ensures r.alertingName == r.asciiAlertingName == r.description == firstname + " " + lastname
  {
    var vmConfig := ForwardConfig(vm, cfwCss);
    var nameString := firstname + " " + lastname;
    LineRecord(
      pattern := extension,
      usage := usage,
      routePartitionName := partition,
      callForwardAll := ForwardConfig("False", cfwCss),
      callForwardBusy := vmConfig,
      callForwardBusyInt := vmConfig,
      callForwardNoAnswer := vmConfig,
      callForwardNoAnswerInt := vmConfig,
      callForwardNoCoverage := vmConfig,
      callForwardNoCoverageInt := vmConfig,
      callForwardOnFailure := vmConfig,
      callForwardAlternateParty := vmConfig,
      callForwardNotRegistered := vmConfig,
      callForwardNotRegisteredInt := vmConfig,
      alertingName := nameString,
      asciiAlertingName := nameString,
      description := nameString,
      voiceMailProfileName := vmProfileName,
      shareLineAppearanceCssName := city)
  }

  /** The phone record deviceAdd sends: named after the device type and user, with
      product and model taken from the device type's table entry, owned and used for
      mobility by the user, and carrying exactly one line, at index 1, on the given
      pattern and partition. */
  function PhoneRecordFor(username: string, firstname: string, lastname: string, e164ext: string,
                          extension: string, devicePool: string, callingSearchSpace: string,
                          devicetype: string, partition: string): (r: PhoneRecord)
    requires devicetype in DeviceTypes
    ensures r.name == devicetype + Upper(username)
    ensures DeviceProductModel(devicetype) == Some(ProductModel(r.product, r.model))
    ensures r.product == r.model
    ensures |r.lines| == 1 && r.lines[0].index == 1 && r.lines[0].dirn == Dirn(e164ext, partition)
    ensures r.ownerUserName == r.mobilityUserIdName == username
    ensures r.lines[0].associatedEnduser == Some(username)
    ensures r.description == firstname + " " + lastname + " x" + extension
  {
    var nameString := firstname + " " + lastname;
    var pm := DeviceProductModel(devicetype).value;
    var phoneLine := PhoneLine(
      index := 1,
      dirn := Dirn(e164ext, partition),
      lineLabel := Some(nameString + " " + extension),
      display := Some(nameString),
      displayAscii := Some(nameString),
      associatedEnduser := Some(username));
    PhoneRecord(
      name := DeviceGetName(username, devicetype).value,
      description := nameString + " x" + extension,
      product := pm.product,
      model := pm.model,
      deviceClass := "Phone",
      protocol := "SIP",
      commonPhoneConfigName := "Standard Common Phone Profile",
      locationName := "Hub_None",
      devicePoolName := devicePool,
      lines := [phoneLine],
      ownerUserName := username,
      mobilityUserIdName := username,
      callingSearchSpaceName := callingSearchSpace)
  }

  /** A phone composed with a line's pattern as its `e164ext` and in the line's partition
      embeds a reference to exactly the key lineAdd stores that line under; the phone's
      own `extension` only labels it. */
  lemma PhoneLineMatchesLineKey(username: string, firstname: string, lastname: string,
                                e164ext: string, extension: string, devicePool: string,
                                callingSearchSpace: string, devicetype: string, partition: string,
                                city: string, vm: string, vmProfileName: string, usage: string,
                                cfwCss: string)
    requires devicetype in DeviceTypes
    ensures var phone := PhoneRecordFor(username, firstname, lastname, e164ext, extension,
                                        devicePool, callingSearchSpace, devicetype, partition);
            var line := LineRecordFor(e164ext, firstname, lastname, city, vm, vmProfileName,
                                      partition, usage, cfwCss);
            phone.lines[0].dirn == Dirn(line.Key().pattern, line.Key().routePartitionName)
  {
  }

  /** The remote destination profile rdpAdd sends: named "RDP" + the user name as given
      (not upper-cased), pointing at the user's "CSF" phone, with one bare line at index 1. */
  function ProfileRecordFor(username: string, firstname: string, lastname: string, e164ext: string,
                            extension: string, devicePool: string, callingSearchSpace: string,
                            partition: string): (r: ProfileRecord)
    ensures r.name == "RDP" + username && r.userId == username
    ensures r.primaryPhoneName == "CSF" + username
    ensures r.lines == [PhoneLine(1, Dirn(e164ext, partition), None, None, None, None)]
    ensures r.callingSearchSpaceName == r.rerouteCallingSearchSpaceName == callingSearchSpace
  {
    var nameString := firstname + " " + lastname;
    ProfileRecord(
      name := "RDP" + username,
      description := nameString + " x" + extension,
      product := "Remote Destination Profile",
      model := "Remote Destination Profile",
      deviceClass := "Remote Destination Profile",
      protocol := "Remote Destination",
      protocolSide := "User",
      callingSearchSpaceName := callingSearchSpace,
      devicePoolName := devicePool,
      lines := [PhoneLine(1, Dirn(e164ext, partition), None, None, None, None)],
      callInfoPrivacyStatus := "Default",
      userId := username,
      rerouteCallingSearchSpaceName := callingSearchSpace,
      primaryPhoneName := "CSF" + username)
  }

  /** The profile's primary phone is the user's actual CSF device exactly when the user
      name is already upper case: the device name is upper-cased, the reference is not. */
  lemma ProfilePhoneMatchesDevice(username: string, firstname: string, lastname: string, e164ext: string,
                                  extension: string, devicePool: string, callingSearchSpace: string,
                                  partition: string)
    ensures ProfileRecordFor(username, firstname, lastname, e164ext, extension, devicePool,
                             callingSearchSpace, partition).primaryPhoneName
            == DeviceGetName(username, "CSF").value
            <==> Upper(username) == username
  {
    var p := "CSF" + username;
    var d := DeviceGetName(username, "CSF").value;
    if p == d {
      assert username == p[3..];
      assert Upper(username) == d[3..];
    }
  }

  /** The remote destination rDestAdd sends: named "RD" + the user id, tied to the
      profile "RDP" + the user id and to no dual-mode device, so the server's rule that
      exactly one owner is named holds. */
  function DestinationRecordFor(dest: string, userid: string): (r: DestinationRecord)
    ensures r.name == "RD" + userid && r.destination == dest && r.ownerUserId == userid
    ensures r.remoteDestinationProfileName == Some("RDP" + userid)
    ensures r.dualModeDeviceName == None
    ensures r.OwnerExclusive()
  {
    DestinationRecord(
      name := "RD" + userid,
      destination := dest,
      answerTooSoonTimer := 1500,
      answerTooLateTimer := 19000,
      delayBeforeRingingCell := 4000,
      ownerUserId := userid,
      remoteDestinationProfileName := Some("RDP" + userid),
      isMobilePhone := "true",
      enableMobileConnect := "true",
      dualModeDeviceName := None)
  }

  /** The writer: every operation is a sequence of calls on the remote service. */
  class AxlWriter {
    const service: AxlService

    constructor (service: AxlService)
      ensures this.service == service
    {
      this.service := service;
    }

    /** userGet: found only for a user the server holds; every failure reads as not found. */
    method UserGet(username: string) returns (found: bool)
      modifies service
      ensures found ==> username in service.users
      ensures service.Snapshot() == old(service.Snapshot())
      ensures service.calls == old(service.calls) + [GetUser(username)]
    {
      found := service.GetUserCall(username);
    }

    /** userExists: userGet never raises, so every user "exists". */
    method UserExists(username: string) returns (r: bool)
      modifies service
      ensures r
      ensures service.Snapshot() == old(service.Snapshot())
      ensures service.calls == old(service.calls) + [GetUser(username)]
    {
      var _ := UserGet(username);
      r := true;
    }

    /** lineExists: true only for a line the server holds. */
    method LineExists(extension: string, partition: string := DefaultPartition) returns (r: bool)
      modifies service
      ensures r ==> LineKey(extension, partition) in service.lines
      ensures service.Snapshot() == old(service.Snapshot())
      ensures service.calls == old(service.calls) + [GetLine(LineKey(extension, partition))]
    {
      r := service.GetLineCall(LineKey(extension, partition));
    }

    /** lineAdd: refuses when the gate finds the pattern in the DEFAULT partition (whatever
        partition is asked for), without issuing addLine; otherwise issues exactly one
        addLine, and on success the server holds exactly one new line. */
    method LineAdd(extension: string, firstname: string, lastname: string, devicePool: string,
                   city: string, vm: string := "True", vmProfileName: string := "<None>",
                   partition: string := DefaultPartition, usage: string := "Device",
                   cfwCss: string := "None")
      returns (r: Outcome<WriterError>)
      modifies service
      ensures var gate := LineKey(extension, DefaultPartition);
              var line := LineRecordFor(extension, firstname, lastname, city, vm, vmProfileName,
                                        partition, usage, cfwCss);
              || (&& r == Fail(LineAlreadyExists)
                  && gate in old(service.lines)
                  && service.calls == old(service.calls) + [GetLine(gate)]
                  && service.Snapshot() == old(service.Snapshot()))
              || (&& r == Pass
                  && LineKey(extension, partition) !in old(service.lines)
                  && service.calls == old(service.calls) + [GetLine(gate), AddLine(line)]
                  && service.Snapshot()
                     == old(service.Snapshot()).(lines := old(service.lines) + {LineKey(extension, partition)}))
              || (&& r == Fail(LineNotAdded)
                  && service.calls == old(service.calls) + [GetLine(gate), AddLine(line)]
                  && service.Snapshot() == old(service.Snapshot()))
    {
      var found := LineExists(extension);
      if !found {
        var line := LineRecordFor(extension, firstname, lastname, city, vm, vmProfileName,
                                  partition, usage, cfwCss);
        var ok := service.AddLineCall(line);
        r := if ok then Pass else Fail(LineNotAdded);
      } else {
        r := Fail(LineAlreadyExists);
      }
    }

    /** lineDelete: never raises; the line is removed or nothing changes. */
    method LineDelete(extension: string, partition: string := DefaultPartition)
      modifies service
      ensures || service.Snapshot() == old(service.Snapshot())
              || service.Snapshot()
                 == old(service.Snapshot()).(lines := old(service.lines) - {LineKey(extension, partition)})
      ensures service.calls == old(service.calls) + [RemoveLine(LineKey(extension, partition))]
    {
      var _ := service.RemoveLineCall(LineKey(extension, partition));
    }

    /** deviceExists: true only for a device name the server holds. */
    method DeviceExists(devicename: string) returns (r: bool)
      modifies service
      ensures r ==> devicename in service.phones
      ensures service.Snapshot() == old(service.Snapshot())
      ensures service.calls == old(service.calls) + [GetPhone(devicename)]
    {
      r := service.GetPhoneCall(devicename);
    }

    /** deviceAdd: an unknown device type raises before any remote call; a device name
        the gate finds is a silent no-op; otherwise exactly one addPhone is issued with
        the composed record, and a rejection is re-raised. */
    method DeviceAdd(username: string, firstname: string, lastname: string, e164ext: string,
                     extension: string, did: string, devicePool: string, callingSearchSpace: string,
                     devicetype: string, partition: string := DefaultPartition)
      returns (r: Outcome<WriterError>)
      modifies service
      ensures devicetype !in DeviceTypes ==>
                && r == Fail(DeviceNameUnbound)
                && service.calls == old(service.calls)
                && service.Snapshot() == old(service.Snapshot())
      ensures devicetype in DeviceTypes ==>
                var name := devicetype + Upper(username);
                var phone := PhoneRecordFor(username, firstname, lastname, e164ext, extension,
                                            devicePool, callingSearchSpace, devicetype, partition);
                || (&& r == Pass
                    && name in old(service.phones)
                    && service.calls == old(service.calls) + [GetPhone(name)]
                    && service.Snapshot() == old(service.Snapshot()))
                || (&& r == Pass
                    && name !in old(service.phones)
                    && service.calls == old(service.calls) + [GetPhone(name), AddPhone(phone)]
                    && service.Snapshot() == old(service.Snapshot()).(phones := old(service.phones) + {name}))
                || (&& r == Fail(PhoneNotAdded)
                    && service.calls == old(service.calls) + [GetPhone(name), AddPhone(phone)]
                    && service.Snapshot() == old(service.Snapshot()))
    {
      var deviceName := DeviceGetName(username, devicetype);
      if deviceName.None? {
        return Fail(DeviceNameUnbound);
      }
      var found := DeviceExists(deviceName.value);
      if !found {
        var phone := PhoneRecordFor(username, firstname, lastname, e164ext, extension,
                                    devicePool, callingSearchSpace, devicetype, partition);
        var ok := service.AddPhoneCall(phone);
        r := if ok then Pass else Fail(PhoneNotAdded);
      } else {
        r := Pass;
      }
    }

    /** deviceDelete: for a known device type never raises and reports whether the device
        was removed; an unknown type raises from the name derivation, outside the handler. */
    method DeviceDelete(username: string, devicetype: string) returns (r: Result<bool, WriterError>)
      modifies service
      ensures devicetype !in DeviceTypes ==>
                && r == Failure(DeviceNameUnbound)
                && service.calls == old(service.calls)
                && service.Snapshot() == old(service.Snapshot())
      ensures devicetype in DeviceTypes ==>
                var name := devicetype + Upper(username);
                && service.calls == old(service.calls) + [RemovePhone(name)]
                && (|| (&& r == Success(true)
                        && name in old(service.phones)
                        && service.Snapshot() == old(service.Snapshot()).(phones := old(service.phones) - {name}))
                    || (r == Success(false) && service.Snapshot() == old(service.Snapshot())))
    {
      var deviceName := DeviceGetName(username, devicetype);
      if deviceName.None? {
        return Failure(DeviceNameUnbound);
      }
      var ok := service.RemovePhoneCall(deviceName.value);
      r := Success(ok);
    }

    /** rdpAdd: gated by a PHONE lookup of "RDP" + username (a profile of that name does
        not stop the add); a hit returns nothing, otherwise one profile add is issued and
        its failure is returned, not raised. */
    method RdpAdd(username: string, firstname: string, lastname: string, e164ext: string,
                  did: string, extension: string, devicePool: string, callingSearchSpace: string,
                  partition: string := DefaultPartition)
      returns (r: AddReply)
      modifies service
      ensures var name := "RDP" + username;
              var profile := ProfileRecordFor(username, firstname, lastname, e164ext, extension,
                                              devicePool, callingSearchSpace, partition);
              || (&& r == NoReply
                  && name in old(service.phones)
                  && service.calls == old(service.calls) + [GetPhone(name)]
                  && service.Snapshot() == old(service.Snapshot()))
              || (&& r == Added
                  && name !in old(service.profiles)
                  && service.calls == old(service.calls) + [GetPhone(name), AddProfile(profile)]
                  && service.Snapshot() == old(service.Snapshot()).(profiles := old(service.profiles) + {name}))
              || (&& r == ReturnedError
                  && service.calls == old(service.calls) + [GetPhone(name), AddProfile(profile)]
                  && service.Snapshot() == old(service.Snapshot()))
    {
      var deviceName := "RDP" + username;
      var found := DeviceExists(deviceName);
      if !found {
        var profile := ProfileRecordFor(username, firstname, lastname, e164ext, extension,
                                        devicePool, callingSearchSpace, partition);
        var ok := service.AddProfileCall(profile);
        r := if ok then Added else ReturnedError;
      } else {
        r := NoReply;
      }
    }

    /** rdpDelete: never raises; reports "Deleted" exactly when profile "RDP" + name was removed. */
    method RdpDelete(name: string) returns (r: string)
      modifies service
      ensures service.calls == old(service.calls) + [RemoveProfile("RDP" + name)]
      ensures || (&& r == "Deleted"
                  && "RDP" + name in old(service.profiles)
                  && service.Snapshot() == old(service.Snapshot()).(profiles := old(service.profiles) - {"RDP" + name}))
              || (r == "NOT Deleted" && service.Snapshot() == old(service.Snapshot()))
    {
      var devName := "RDP" + name;
      var ok := service.RemoveProfileCall(devName);
      r := if ok then "Deleted" else "NOT Deleted";
    }

    /** rDestAdd: no existence gate; one add is issued, and on success the destination's
        profile "RDP" + userid is one the server holds. Failure is returned, not raised. */
    method RDestAdd(dest: string, userid: string, e164ext: string) returns (r: AddReply)
      modifies service
      ensures service.calls == old(service.calls) + [AddDestination(DestinationRecordFor(dest, userid))]
      ensures || (&& r == Added
                  && dest !in old(service.destinations)
                  && "RDP" + userid in service.profiles
                  && service.Snapshot() == old(service.Snapshot()).(destinations := old(service.destinations) + {dest}))
              || (r == ReturnedError && service.Snapshot() == old(service.Snapshot()))
    {
      var rdPackage := DestinationRecordFor(dest, userid);
      var ok := service.AddDestinationCall(rdPackage);
      r := if ok then Added else ReturnedError;
    }
  }

  /** Two lineAdd calls for the same extension: whatever the remote does, the second one
      never adds a line once the first one did. */
  method AddLineTwice(w: AxlWriter, extension: string, firstname: string, lastname: string,
                      devicePool: string, city: string)
    returns (first: Outcome<WriterError>, second: Outcome<WriterError>)
    modifies w.service
    ensures first == Pass ==> second.Fail?
    ensures first == Pass ==> w.service.lines == old(w.service.lines) + {LineKey(extension, DefaultPartition)}
  {
    first := w.LineAdd(extension, firstname, lastname, devicePool, city);
    second := w.LineAdd(extension, firstname, lastname, devicePool, city);
  }
}
