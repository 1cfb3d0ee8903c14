# cucmAxlWriter in Dafny

A model of the two core components of `cucmAxlWriter`, a tool that provisions
telephony objects on a Cisco Unified Communications Manager through its AXL
administrative API.

- **The writer** (`cucm_axl_writer.dfy`, module `CucmAxlWriter`) builds the request
  records for lines, phones, remote destination profiles and remote destinations. It
  issues them against the call-manager behind existence checks. The call-manager itself
  is abstract state (`axl_remote.dfy`, class `AxlRemote.AxlService`). It holds a set of
  line keys (pattern and partition), device names, profile names and destination
  numbers. A ghost log `calls` records every request the writer issues, in order. Each
  remote operation may fail for reasons the writer cannot see, such as transport errors
  or server-side validation. So its contract only says what a success implies. These
  implications are assumptions about the server's validation, and the writer's
  guarantees hold for any server that keeps them:
  - a `get` that answers means the key is held;
  - an `add` that succeeds means the key was new and is now held;
  - a `remove` that succeeds means the key was held and is now gone;
  - `addRemoteDestination` succeeds only for a record that names exactly one owner (a
    profile or a dual-mode device) and, when that owner is a profile, one the server
    holds. The stock AXL schema of release 11.5 and earlier declares both owner fields
    required. The docstring of `rDestAdd` (cucmAxlWriter.py:443-454) says an add with
    only a profile goes through only once the schema's `dualModeDeviceName` is made
    optional. The model presupposes that edited schema. `RDestAdd`'s promise that the
    destination's profile is held rests on this server-side check: the writer itself
    checks nothing.
- **The session bootstrap** (`cucm_axl_config.dfy`, module `CucmAxlConfig`) has these
  parts:
  - the file-location rule of `checkFileExists`;
  - the AXL URL;
  - the decision tree that sets certificate verification when the configuration is
    built interactively;
  - the certificate download;
  - the field-by-field loader and its delete-on-failure rule;
  - the constructor's WSDL/configuration gating.

  The file system, the network fetch of the certificate, `socket.inet_aton` and the
  operator's answers belong to class `Environment`:
  - a map from path to file content;
  - the working directory;
  - an IPv4-literal oracle;
  - a fetch that may fail and is logged in `fetches`.

Python exceptions become values: `Outcome`/`Result` for operations that raise, and
`AddReply` for the two operations that return their exception. Python's `__init__` is
split into the Dafny constructor (the defaults, lines 30-42) and `Setup` (lines 44-64),
because a Dafny constructor cannot report failure.

Points where the code decides, and the model follows it:

- `deviceGetName` binds no name for an unknown device type, so `.upper()` raises.
  `deviceAdd` calls it at line 260, before its own table check. Its "Invalid Device Type"
  branch (line 277) can therefore never run. The model reports `DeviceNameUnbound`.
- `deviceDelete` derives the name outside its `try`. So an unknown device type raises
  there, even though deletes otherwise never raise.
- The gate of `lineAdd` always looks in partition `Internal PAR`, whatever partition is
  asked for.
- The gate of `rdpAdd` looks up a **phone**, not a profile, named `"RDP" + username`.
- A failed certificate fetch during the interactive build is not caught: the exception
  escapes `__buildCucmCfgFile` (cucmAxlConfig.py:226) and the constructor
  (cucmAxlConfig.py:62). The model reports `CertDownloadFailed`.
- A certificate is not fetched once and then served from disk across sessions. Each new
  session starts with an empty certificate name (cucmAxlConfig.py:35). The loader calls
  the verify setter before it reads `verifyFile` (cucmAxlConfig.py:194-195). So the
  existence test resolves the empty name to the working directory itself, which is not a
  file, and every session whose configuration asks for verification fetches the
  certificate again. The loader then overwrites the certificate name with `verifyFile`,
  which need not exist: such a session ends with verification on and no certificate file
  under that name. `Setup` states both.

## Model

| member | source | states |
|---|---|---|
| `Text.Upper` | cucmAxlWriter.py:234 | upper-casing keeps the length and upper-cases each ASCII letter in place |
| `Text.UpperAppend` | cucmAxlWriter.py:226-234 | upper-casing the concatenated name equals concatenating the upper-cased parts |
| `CucmAxlWriter.DeviceGetName` | cucmAxlWriter.py:224-235 | a name exists exactly for CSF, TCT, BOT and TAB; it is the type code followed by the upper-cased user name |
| `CucmAxlWriter.DeviceNameCollision` | cucmAxlWriter.py:224-235 | for a known type, two users get the same device name if and only if their names agree after upper-casing |
| `CucmAxlWriter.DeviceProductModel` | cucmAxlWriter.py:264-277 | the table covers exactly the four known codes, and product always equals model |
| `CucmAxlWriter.LineRecordFor` | cucmAxlWriter.py:158-190 | the line is keyed by extension and partition; all ten conditional forwards are `(vm, cfw_css)`; forward-all is `('False', cfw_css)`; alerting name, ASCII alerting name and description all equal first name, space, last name |
| `CucmAxlWriter.PhoneRecordFor` | cucmAxlWriter.py:258-318 | the phone is named by type and upper-cased user; product and model are the table entry of the device type (so product equals model); exactly one line, at index 1, on `(e164ext, partition)`; owner, mobility user and line end-user are all the user; description is name + " x" + extension |
| `CucmAxlWriter.PhoneLineMatchesLineKey` | cucmAxlWriter.py:285-287 | a phone whose `e164ext` is a line's extension, in the same partition, refers to exactly the key that `lineAdd` stores that line under; the phone's own `extension` plays no part |
| `CucmAxlWriter.ProfileRecordFor` | cucmAxlWriter.py:364-398 | the profile is named `"RDP" + username`, not upper-cased; its primary phone is `"CSF" + username`; one bare line at index 1; both calling search spaces are the given one |
| `CucmAxlWriter.ProfilePhoneMatchesDevice` | cucmAxlWriter.py:398 | the profile's primary phone is the user's actual CSF device name if and only if the user name is already upper case |
| `CucmAxlWriter.DestinationRecordFor` | cucmAxlWriter.py:457-471 | the destination is named `"RD" + userid` and tied to profile `"RDP" + userid`; no dual-mode device is set, so exactly one owner is named |
| `CucmAxlWriter.AxlWriter.UserGet` | cucmAxlWriter.py:81-89 | found only for a user the server holds; issues one getUser; changes nothing |
| `CucmAxlWriter.AxlWriter.UserExists` | cucmAxlWriter.py:91-97 | always returns true, because `userGet` swallows every error |
| `CucmAxlWriter.AxlWriter.LineExists` | cucmAxlWriter.py:139-148 | true only for a line the server holds; issues one getLine; changes nothing |
| `CucmAxlWriter.AxlWriter.LineAdd` | cucmAxlWriter.py:150-203 | there are three outcomes. (1) "Line already exists": the line was held in `Internal PAR`, and only the getLine was issued. (2) Success: the key was new, and exactly that key was added. (3) "Line could not be added": nothing changed. In every case at most one addLine is issued |
| `CucmAxlWriter.AddLineTwice` | cucmAxlWriter.py:150-203 | after a successful `lineAdd`, a second one for the same extension always fails |
| `CucmAxlWriter.AxlWriter.LineDelete` | cucmAxlWriter.py:215-222 | never raises; either the line is removed or nothing changes |
| `CucmAxlWriter.AxlWriter.DeviceExists` | cucmAxlWriter.py:246-253 | true only for a device the server holds; issues one getPhone; changes nothing |
| `CucmAxlWriter.AxlWriter.DeviceAdd` | cucmAxlWriter.py:255-328 | an unknown type raises before any remote call. A name the gate finds is a silent no-op. Otherwise exactly one addPhone is issued with the composed record, and it either adds exactly that name or is re-raised with nothing changed |
| `CucmAxlWriter.AxlWriter.DeviceDelete` | cucmAxlWriter.py:333-342 | an unknown type raises before any call. Otherwise the result is true when the device was removed and false when nothing changed |
| `CucmAxlWriter.AxlWriter.RdpAdd` | cucmAxlWriter.py:362-406 | the gate is a phone lookup of `"RDP" + username`; a hit returns nothing. Otherwise exactly one profile add is issued; it is added, or the error is returned with nothing changed |
| `CucmAxlWriter.AxlWriter.RdpDelete` | cucmAxlWriter.py:411-420 | never raises. Returns "Deleted" exactly when profile `"RDP" + name` was removed, and "NOT Deleted" with nothing changed otherwise |
| `CucmAxlWriter.AxlWriter.RDestAdd` | cucmAxlWriter.py:442-481 | no gate; exactly one add is issued. On success the destination is new and now held, and, by the server-side check described above, its profile `"RDP" + userid` is held. On failure the error is returned with nothing changed |
| `CucmAxlConfig.FileLocation` | cucmAxlConfig.py:112-116 | the checked location always contains the directory and ends with the file name. It is the file name unchanged exactly when the name already contains the directory; otherwise it is directory + name with no separator |
| `CucmAxlConfig.AxlConfig.CheckFileExists` | cucmAxlConfig.py:112-124 | the result is exactly whether a file exists at the resolved location |
| `CucmAxlConfig.AxlConfig.GetCucmAxlUrl` | cucmAxlConfig.py:144-145 | the URL starts with `https://`, ends with `:8443/axl/`, and the host reads back from between them |
| `CucmAxlConfig.PathJoin` | cucmAxlConfig.py:173-174 | `os.path.join` ends with the name; it starts with the directory unless the name is absolute, in which case it is the name |
| `CucmAxlConfig.CertFileName` | cucmAxlConfig.py:173-174 | the certificate file is `<host>.pem` joined to the working directory, and its name ends with the host followed by `.pem` |
| `CucmAxlConfig.CertFoundWhereWritten` | cucmAxlConfig.py:226-229 | for a host that is not an absolute path, the check after a download looks exactly where the certificate was written |
| `CucmAxlConfig.BuiltCfgIsLoaded` | cucmAxlConfig.py:57-64 | the file written as `ucm.cfg` (line 239) is the one loaded from `localDir + '/ucm.cfg'`, when the working directory does not end in a separator |
| `CucmAxlConfig.AxlConfig.constructor` | cucmAxlConfig.py:30-42 | the defaults: WSDL and configuration names, empty strings, verification off, the working directory captured |
| `CucmAxlConfig.AxlConfig.DownloadCucmCert` | cucmAxlConfig.py:164-178 | exactly one fetch, of the configured host on port 443. On success the certificate field becomes `<localDir>/<host>.pem` and that file exists; on failure it raises with nothing changed |
| `CucmAxlConfig.AxlConfig.SetCucmVerify` | cucmAxlConfig.py:153-159 | the flag is always recorded. A fetch happens exactly when the flag is set and the current certificate file is not found |
| `CucmAxlConfig.VerifyTwiceFetchesOnce` | cucmAxlConfig.py:153-178 | on one configuration object, turning verification on twice fetches the certificate at most once (a new session fetches again; see `Setup`) |
| `CucmAxlConfig.AxlConfig.RemoveCfgFile` | cucmAxlConfig.py:197-199 | the configuration file is removed; this raises exactly when it was absent |
| `CucmAxlConfig.AxlConfig.LoadCucmCfgFile` | cucmAxlConfig.py:186-199 | the loader sets username, password, url, verify and verifyFile in that order. A missing key leaves the later fields untouched. Verify is checked against the certificate name held before verifyFile is read. Any failure removes the configuration file |
| `CucmAxlConfig.AxlConfig.BuildCucmCfgFile` | cucmAxlConfig.py:201-240 | an IPv4 host gives verify false with no prompt and no fetch. Otherwise only "y" fetches, and verify is then exactly "the certificate file is found". The written record has exactly username, password, url, verify and the current certificate name |
| `CucmAxlConfig.AxlConfig.LoadFromWorkingDir` | cucmAxlConfig.py:63-64 | the configuration name becomes localDir + name and is loaded. A complete record that loads leaves exactly its values in the fields, whether or not a certificate was fetched on the way; without a needed download there is no fetch. A record asking for verification while the current certificate name is not a file fetches once from port 443; if it then loads with a `verifyFile` that is not a file, the session names that missing file with verification on |
| `CucmAxlConfig.AxlConfig.BuildThenLoad` | cucmAxlConfig.py:59-64 | the file written by the builder is the one then loaded. For an IPv4 host or any answer but "y", the session holds the prompted credentials and host with verification off, no certificate and no fetch. With "y" and a relative host, a successful run holds verification on and the certificate file just written, after exactly one fetch |
| `CucmAxlConfig.AxlConfig.Setup` | cucmAxlConfig.py:44-64 | a missing WSDL raises and changes nothing. Otherwise the WSDL path becomes localDir + name and the builder runs exactly when the configuration file is not found. Unless the builder raised, the configuration path becomes localDir + name. A session built for an IPv4 host, or with any answer but "y", holds the prompted credentials and host with verification off and no fetch. A session built with "y" for a relative host holds verification on and the certificate file just written, after one fetch. A session loaded from an existing file that asks for verification fetches the certificate again, and can end with verification on and a certificate name that is not a file |

## Left out

- Building the SOAP client, its cache, transport and session, `type_factory` and
  `create_service` (cucmAxlConfig.py:66-110, cucmAxlWriter.py:39-79). These are foreign
  library calls. The writer receives the remote service as a constructor parameter.
- `ucAppConfig.ccmAppConfig`, which the writer's constructor uses, is not part of this
  model.
- The certificate fetch over TLS and the PEM load/dump round trip (cucmAxlConfig.py:168-172)
  are network and cryptography. `Environment.FetchCertificate` either writes the file or
  fails.
- File reads and writes, JSON encoding, `os.remove`, `os.path.isfile`, `os.getcwd` and
  `input()` are replaced as follows:
  - the file system is a map from path to content;
  - a file holds either a parsed configuration record or something that does not parse;
  - prompts are the `Prompts` parameter;
  - `socket.inet_aton` is the `inetAton` oracle.
- Writing `ucm.cfg` is assumed to succeed. The working directory is assumed not to change
  after the constructor.
- Paths are compared as plain strings, with no normalisation. For example, `//ucm.cfg`
  and `/ucm.cfg` are different files here.
- Configuration values of types other than those the builder writes are not modelled.
  A hand-edited file with a non-boolean `verify` is an example.
- Logging and printing throughout.
- `userUpdate` and `lineUpdate` are not modelled. Each packs its parameters into one
  unconditional remote update, with no existence check.
- The stubs `userAdd`, `userDelete`, `deviceUpdate`, `rdpUpdate`, `rDestUpdate` and
  `rDestDelete` are not modelled. They only return constants.
- `lineGet`, `deviceGet`, `rdpGet`, `rdpExists`, `rDestGet` and `rDestExists` are not
  modelled. They have the same shape as `LineExists`/`DeviceExists`.
- The contents of the objects that remote `get` calls return are not modelled.
  `UserGet` returns whether the user was found.
- The trivial field getters of the configuration object (`getCucmUsername`, `getCucmCert`
  and so on) are reads of the fields.
- `Text.Upper`: only ASCII upper-casing is modelled; Python's full Unicode `str.upper` is
  not.
- The writer's request objects are filled field by field in the source. Here they are
  immutable records built in one step.
- Concurrent callers on the same key are not modelled.

Outcomes of the remote service: a remote get may fail even for a held key, and an add may
be rejected even for a new key. This is why `LineAdd`, `DeviceAdd` and `RdpAdd` list
several possible outcomes instead of a single one.
