/** Session bootstrap: locating the WSDL and the configuration file, building the
    configuration interactively when it is missing, loading it field by field, and
    fetching the server's certificate when verification is asked for. The file system,
    the network fetch, the IPv4 test and the operator's answers come from outside. */
module CucmAxlConfig {
  import opened Wrappers
  import opened Text

  /** Where the WSDL is looked for, relative to the working directory. */
  const DefaultWsdlFileName := "/axlsqltoolkit/schema/10.5/AXLAPI.wsdl"

  /** Where the configuration file is looked for, relative to the working directory. */
  const DefaultCfgFileName := "/ucm.cfg"

  /** The relative name the interactive builder writes the configuration to. */
  const WrittenCfgFileName := "ucm.cfg"

  /** The TLS port the server certificate is fetched from. */
  const CertPort := 443

  /** checkFileExists's rule for the location it tests: the name is prefixed with the
      directory (no separator added) unless the directory already occurs in it. The
      location always mentions the directory and ends with the name, and it is the name
      unchanged exactly when the name already mentions the directory. */
  function FileLocation(filename: string, directory: string): (loc: string)
    ensures Contains(loc, directory)
    ensures EndsWith(loc, filename)
    ensures loc == filename <==> Contains(filename, directory)
  {
    if !Contains(filename, directory) then
      ContainsPrefix(directory, filename);
      assert directory == [] ==> Contains(filename, directory);
      directory + filename
    else
      filename
  }

  /** POSIX `os.path.join` of two components: an absolute second component replaces the
      first; otherwise a separator is inserted unless the first is empty or ends in one. */
  function PathJoin(directory: string, name: string): (p: string)
    ensures EndsWith(p, name)
    ensures !StartsWith(name, "/") ==> StartsWith(p, directory)
    ensures StartsWith(name, "/") ==> p == name
  {
    if StartsWith(name, "/") then name
    else if directory == [] || directory[|directory| - 1] == '/' then directory + name
    else
      assert (directory + "/" + name)[..|directory|] == directory;
      directory + "/" + name
  }

  /** The certificate file of a host: `<host>.pem` in the working directory. */
  function CertFileName(localDir: string, hostname: string): (p: string)
    ensures EndsWith(p, hostname + ".pem")
  {
    PathJoin(localDir, hostname + ".pem")
  }

  /** A certificate just written for a host that is not an absolute path is found by
      checkFileExists in the working directory under the very name it was written to. */
  lemma CertFoundWhereWritten(localDir: string, hostname: string)
    requires !StartsWith(hostname, "/")
    ensures FileLocation(CertFileName(localDir, hostname), localDir) == CertFileName(localDir, hostname)
  {
    var name := hostname + ".pem";
    if hostname != [] {
      assert hostname[..1] == [hostname[0]] && name[..1] == [hostname[0]];
    } else {
      assert name[..1] == ".";
    }
    assert !StartsWith(name, "/");
    var p := CertFileName(localDir, hostname);
    assert Contains(p, localDir);
  }

  /** The configuration file the builder writes is the one the constructor then loads,
      as long as the working directory does not end in a separator. */
  lemma BuiltCfgIsLoaded(cwd: string)
    requires cwd != [] && cwd[|cwd| - 1] != '/'
    ensures PathJoin(cwd, WrittenCfgFileName) == cwd + DefaultCfgFileName
  {
    assert WrittenCfgFileName[..1] == "u";
    assert cwd + "/" + WrittenCfgFileName == cwd + DefaultCfgFileName;
  }

  /** The configuration record as read from its JSON file; a missing key is `None`. */
  datatype CfgDoc = CfgDoc(
    username: Option<string>,
    password: Option<string>,
    url: Option<string>,
    verify: Option<bool>,
    verifyFile: Option<string>)

  /** What a file holds: a configuration record that parses as JSON, or anything else. */
  datatype FileData = CfgJson(doc: CfgDoc) | Opaque

  /** The operator's answers to the builder's prompts. */
  datatype Prompts = Prompts(username: string, password: string, host: string, useCertificates: string)

  /** Why bootstrapping raised. */
  datatype ConfigError =
    | WsdlNotFound        // "WSDL File NOT found. Unrecoverable error."
    | CertDownloadFailed  // the certificate fetch or its write raised
    | CfgRemoveFailed     // removing a bad configuration file raised

  /** How loading the configuration file ended. */
  datatype LoadStatus = Loaded | Discarded | RemoveRaised

  /** The configuration object's private fields. */
  datatype ConfigState = ConfigState(
    wsdlFileName: string,
    cfgFileName: string,
    certFileName: string,
    url: string,
    username: string,
    password: string,
    verify: bool)

  /** How many keys the loader reads, in its order, before the first missing one. */
  function KeysRead(d: CfgDoc): (n: nat)
    ensures n <= 5
  {
    if d.username.None? then 0
    else if d.password.None? then 1
    else if d.url.None? then 2
    else if d.verify.None? then 3
    else if d.verifyFile.None? then 4
    else 5
  }

  /** The fields after the loader's first `n` setters have run, leaving aside the
      certificate download the verify setter may trigger. */
  function Apply(s: ConfigState, d: CfgDoc, n: nat): ConfigState
    requires n <= KeysRead(d)
  {
    var s1 := if n >= 1 then s.(username := d.username.value) else s;
    var s2 := if n >= 2 then s1.(password := d.password.value) else s1;
    var s3 := if n >= 3 then s2.(url := d.url.value) else s2;
    var s4 := if n >= 4 then s3.(verify := d.verify.value) else s3;
    if n >= 5 then s4.(certFileName := d.verifyFile.value) else s4
  }

  /** One certificate fetch: the host and TLS port contacted. */
  datatype Fetch = Fetch(host: string, port: int)

  /** The outside world of the bootstrap: the file system, the working directory, the
      IPv4-literal test and the network fetch of a server certificate. */
  class Environment {
    var files: map<string, FileData>
    const cwd: string
    const inetAton: string -> bool
    /** The certificate fetches made, in order. */
    ghost var fetches: seq<Fetch>

    constructor (files: map<string, FileData>, cwd: string, inetAton: string -> bool)
      ensures this.files == files && this.cwd == cwd && this.inetAton == inetAton && fetches == []
    {
      this.files, this.cwd, this.inetAton := files, cwd, inetAton;
      fetches := [];
    }

    /** Fetches the host's certificate and writes it to `path`; may fail. */
    method FetchCertificate(hostname: string, port: int, path: string) returns (ok: bool)
      modifies this
      ensures fetches == old(fetches) + [Fetch(hostname, port)]
      ensures files == if ok then old(files)[path := Opaque] else old(files)
    {
      ok := *;
      if ok {
        files := files[path := Opaque];
      }
      fetches := fetches + [Fetch(hostname, port)];
    }

    /** `os.remove`: fails exactly when there is no such file. */
    method Remove(path: string) returns (ok: bool)
      modifies this
      ensures ok <==> path in old(files)
      ensures files == old(files) - {path}
      ensures fetches == old(fetches)
    {
      ok := path in files;
      files := files - {path};
    }

    /** Writes a whole file. */
    method WriteFile(path: string, data: FileData)
      modifies this
      ensures files == old(files)[path := data]
      ensures fetches == old(fetches)
    {
      files := files[path := data];
    }
  }

  /** The configuration object. */
  class AxlConfig {
    var wsdlFileName: string
    var cfgFileName: string
    var certFileName: string
    var url: string
    var username: string
    var password: string
    var verify: bool
    const localDir: string
    const env: Environment

    function State(): ConfigState
      reads this
    {
      ConfigState(wsdlFileName, cfgFileName, certFileName, url, username, password, verify)
    }

    /** The defaults the constructor starts from; the working directory is captured once. */
    constructor (env: Environment)
      ensures this.env == env && localDir == env.cwd
      ensures State() == ConfigState(DefaultWsdlFileName, DefaultCfgFileName, "", "", "", "", false)
    {
      wsdlFileName := DefaultWsdlFileName;
      cfgFileName := DefaultCfgFileName;
      certFileName := "";
      url := "";
      username := "";
      password := "";
      verify := false;
      localDir := env.cwd;
      this.env := env;
    }

    /** checkFileExists: whether a file exists at the location the rule resolves. */
    method CheckFileExists(filename: string, directory: string) returns (found: bool)
      ensures found <==> FileLocation(filename, directory) in env.files
    {
      var fileLocation := if !Contains(filename, directory) then directory + filename else filename;
      found := fileLocation in env.files;
    }

    /** getCucmAxlUrl: the AXL endpoint of the configured host, on port 8443 under /axl/;
        the host can be read back from it. */
    function GetCucmAxlUrl(): (r: string)
      reads this
      ensures StartsWith(r, "https://") && EndsWith(r, ":8443/axl/")
      ensures |r| == |url| + 18
      ensures r[8..|r| - 10] == url
    {
      "https://" + url + ":8443/axl/"
    }

    /** downloadCucmCert: fetches the configured host's certificate into `<host>.pem` in
        the working directory and records that file; a failed fetch raises. */
    method DownloadCucmCert() returns (r: Outcome<ConfigError>)
      modifies this, env
      ensures env.fetches == old(env.fetches) + [Fetch(url, CertPort)]
      ensures var path := CertFileName(localDir, url);
              || (&& r == Pass
                  && State() == old(State()).(certFileName := path)
                  && env.files == old(env.files)[path := Opaque])
              || (&& r == Fail(CertDownloadFailed)
                  && State() == old(State())
                  && env.files == old(env.files))
    {
      var hostname := url;
      var certPath := CertFileName(localDir, hostname);
      var ok := env.FetchCertificate(hostname, CertPort, certPath);
      if !ok {
        return Fail(CertDownloadFailed);
      }
      certFileName := certPath;
      r := Pass;
    }

    /** setCucmVerify: records the flag; only when it is set and the CURRENT certificate
        file is not found does it download one, and that download may raise. */
    method SetCucmVerify(v: bool) returns (r: Outcome<ConfigError>)
      modifies this, env
      ensures var needed := v && FileLocation(old(certFileName), localDir) !in old(env.files);
              var path := CertFileName(localDir, url);
              && url == old(url)
              && (!needed ==>
                    && r == Pass
                    && State() == old(State()).(verify := v)
                    && env.files == old(env.files)
                    && env.fetches == old(env.fetches))
              && (needed ==>
                    && env.fetches == old(env.fetches) + [Fetch(url, CertPort)]
                    && (|| (&& r == Pass
                            && State() == old(State()).(verify := v, certFileName := path)
                            && env.files == old(env.files)[path := Opaque])
                        || (&& r == Fail(CertDownloadFailed)
                            && State() == old(State()).(verify := v)
                            && env.files == old(env.files))))
    {
      verify := v;
      r := Pass;
      if verify {
        var certFileExists := CheckFileExists(certFileName, localDir);
        if !certFileExists {
          r := DownloadCucmCert();
        }
      }
    }

    /** Removes the configuration file after a failed load; `os.remove` raises when the
        file is not there. */
    method RemoveCfgFile() returns (r: LoadStatus)
      modifies env
      ensures r == (if cfgFileName in old(env.files) then Discarded else RemoveRaised)
      ensures env.files == old(env.files) - {cfgFileName}
      ensures env.fetches == old(env.fetches)
    {
      var ok := env.Remove(cfgFileName);
      r := if ok then Discarded else RemoveRaised;
    }

    /** loadCucmCfgFile: sets username, password, url, verify and verifyFile in that
        order, so a missing key leaves the later fields untouched and verify is checked
        against the certificate name held BEFORE verifyFile is read. Anything that fails
        (no file, no JSON, a missing key, a raising download) removes the configuration
        file. `downloaded` tells whether the verify setter fetched a certificate. */
    method LoadCucmCfgFile(filename: string) returns (r: LoadStatus, ghost downloaded: bool)
      modifies this, env
      ensures var parsed := filename in old(env.files) && old(env.files)[filename].CfgJson?;
              var d := if parsed then old(env.files)[filename].doc else CfgDoc(None, None, None, None, None);
              var n := KeysRead(d);
              var needed := n >= 4 && d.verify.value
                            && FileLocation(old(certFileName), localDir) !in old(env.files);
              var path := if n >= 3 then CertFileName(localDir, d.url.value) else "";
              var before := if downloaded then old(env.files)[path := Opaque] else old(env.files);
              var failed := n < 5 || (needed && !downloaded);
              && (downloaded ==> needed)
              && env.fetches == (if needed then old(env.fetches) + [Fetch(d.url.value, CertPort)] else old(env.fetches))
              && State() == (if needed && !downloaded then Apply(old(State()), d, 4)
                             else if downloaded && n == 4 then Apply(old(State()), d, 4).(certFileName := path)
                             else Apply(old(State()), d, n))
              && (r == Loaded <==> !failed)
              && (!failed ==> env.files == before)
              && (failed ==> && env.files == before - {cfgFileName}
                             && (r == Discarded <==> cfgFileName in before))
    {
      downloaded := false;
      if filename !in env.files || !env.files[filename].CfgJson? {
        r := RemoveCfgFile();
        return;
      }
      var d := env.files[filename].doc;
      if d.username.None? {
        r := RemoveCfgFile();
        return;
      }
      username := d.username.value;
      if d.password.None? {
        r := RemoveCfgFile();
        return;
      }
      password := d.password.value;
      if d.url.None? {
        r := RemoveCfgFile();
        return;
      }
      url := d.url.value;
      if d.verify.None? {
        r := RemoveCfgFile();
        return;
      }
      ghost var needed := d.verify.value && FileLocation(certFileName, localDir) !in env.files;
      var o := SetCucmVerify(d.verify.value);
      downloaded := needed && o.Pass?;
      if o.Fail? || d.verifyFile.None? {
        r := RemoveCfgFile();
        return;
      }
      certFileName := d.verifyFile.value;
      r := Loaded;
    }

    /** buildCucmCfgFile: records the host, then decides verification: an IPv4 literal
        forces it off without asking; otherwise only the answer "y" fetches the certificate
        (a failed fetch raises), and verification is on exactly when the certificate file
        is then found. Writes username, password, url, verify and the current certificate
        file name to `ucm.cfg` in the working directory. */
    method BuildCucmCfgFile(p: Prompts) returns (r: Outcome<ConfigError>)
      modifies this, env
      ensures var cfgPath := PathJoin(env.cwd, WrittenCfgFileName);
              var bypass := env.inetAton(p.host) || p.useCertificates != "y";
              var path := CertFileName(localDir, p.host);
              && (bypass ==>
                    && r == Pass
                    && env.fetches == old(env.fetches)
                    && State() == old(State()).(url := p.host)
                    && env.files == old(env.files)[cfgPath := CfgJson(CfgDoc(Some(p.username), Some(p.password),
                                                    Some(p.host), Some(false), Some(old(certFileName))))])
              && (!bypass ==>
                    && env.fetches == old(env.fetches) + [Fetch(p.host, CertPort)]
                    && (|| (&& r == Fail(CertDownloadFailed)
                            && State() == old(State()).(url := p.host)
                            && env.files == old(env.files))
                        || (&& r == Pass
                            && State() == old(State()).(url := p.host, certFileName := path)
                            && var withCert := old(env.files)[path := Opaque];
                               env.files == withCert[cfgPath := CfgJson(CfgDoc(Some(p.username), Some(p.password),
                                              Some(p.host), Some(FileLocation(path, localDir) in withCert), Some(path)))])))
    {
      url := p.host;
      var verifyCert: bool;
      if env.inetAton(p.host) {
        verifyCert := false;
      } else if p.useCertificates == "y" {
        r := DownloadCucmCert();
        if r.Fail? {
          return;
        }
        verifyCert := CheckFileExists(certFileName, localDir);
      } else {
        verifyCert := false;
      }
      var data := CfgDoc(Some(p.username), Some(p.password), Some(p.host), Some(verifyCert), Some(certFileName));
      env.WriteFile(PathJoin(env.cwd, WrittenCfgFileName), CfgJson(data));
      r := Pass;
    }

    /** The constructor's last step: the configuration name is made absolute under the
        working directory and loaded. A complete record that needs no download leaves
        exactly its values in the fields; a record asking for verification while the
        current certificate name is not a file fetches the certificate, and if it then
        loads, the session names `verifyFile` with verification on. */
    method LoadFromWorkingDir() returns (r: Outcome<ConfigError>)
      modifies this, env
      ensures cfgFileName == localDir + old(cfgFileName)
      ensures r == Pass || r == Fail(CfgRemoveFailed)
      ensures r == Fail(CfgRemoveFailed) ==> cfgFileName !in env.files
      ensures wsdlFileName == old(wsdlFileName)
      ensures var path := localDir + old(cfgFileName);
              var parsed := path in old(env.files) && old(env.files)[path].CfgJson?;
              var d := if parsed then old(env.files)[path].doc else CfgDoc(None, None, None, None, None);
              var needed := KeysRead(d) >= 4 && d.verify.value
                            && FileLocation(old(certFileName), localDir) !in old(env.files);
              && (KeysRead(d) == 5 && !needed ==>
                    && r == Pass && cfgFileName in env.files
                    && State() == Apply(old(State()).(cfgFileName := path), d, 5)
                    && env.files == old(env.files) && env.fetches == old(env.fetches))
              && (needed ==>
                    && env.fetches == old(env.fetches) + [Fetch(d.url.value, CertPort)]
                    && (&& KeysRead(d) == 5 && cfgFileName in env.files
                        && d.verifyFile.value !in old(env.files)
                        && d.verifyFile.value != CertFileName(localDir, d.url.value)
                        ==> verify && certFileName == d.verifyFile.value && certFileName !in env.files))
      ensures var path := localDir + old(cfgFileName);
              var parsed := path in old(env.files) && old(env.files)[path].CfgJson?;
              var d := if parsed then old(env.files)[path].doc else CfgDoc(None, None, None, None, None);
              KeysRead(d) == 5 && cfgFileName in env.files ==>
                r == Pass && State() == Apply(old(State()).(cfgFileName := path), d, 5)
    {
      cfgFileName := localDir + cfgFileName;
      var status, _ := LoadCucmCfgFile(cfgFileName);
      r := if status == RemoveRaised then Fail(CfgRemoveFailed) else Pass;
    }

    /** The constructor's path when no configuration file is found: build it from the
        prompts, then load it. With a working directory that does not end in a separator,
        the file written is the one loaded, so the session holds what the operator
        answered. */
    method BuildThenLoad(p: Prompts) returns (r: Outcome<ConfigError>)
      requires cfgFileName == DefaultCfgFileName && certFileName == "" && localDir == env.cwd
      modifies this, env
      ensures wsdlFileName == old(wsdlFileName)
      ensures r.Pass? || r == Fail(CfgRemoveFailed) ==> cfgFileName == localDir + old(cfgFileName)
      ensures r == Fail(CfgRemoveFailed) ==> cfgFileName !in env.files
      ensures var plainDir := localDir != [] && localDir[|localDir| - 1] != '/';
              plainDir && (env.inetAton(p.host) || p.useCertificates != "y") ==>
                && r == Pass && !verify
                && username == p.username && password == p.password && url == p.host
                && certFileName == "" && env.fetches == old(env.fetches)
      ensures var plainDir := localDir != [] && localDir[|localDir| - 1] != '/';
              plainDir && !env.inetAton(p.host) && p.useCertificates == "y"
              && !StartsWith(p.host, "/") && r == Pass ==>
                && verify && username == p.username && password == p.password && url == p.host
                && certFileName == CertFileName(localDir, p.host) && certFileName in env.files
                && env.fetches == old(env.fetches) + [Fetch(p.host, CertPort)]
    {
      r := BuildCucmCfgFile(p);
      if r.Fail? {
        return;
      }
      if localDir != [] && localDir[|localDir| - 1] != '/' {
        BuiltCfgIsLoaded(localDir);
        if !StartsWith(p.host, "/") {
          CertFoundWhereWritten(localDir, p.host);
        }
        assert env.files[localDir + cfgFileName].CfgJson?;
      }
      r := LoadFromWorkingDir();
    }

    /** The constructor's gating after the defaults: a missing WSDL raises and changes
        nothing; otherwise the WSDL path is made absolute, the configuration file is built
        only when it is not found, and then it is loaded from the working directory.
        `built` tells whether the interactive builder ran. It runs on the constructor's
        defaults, as the rest of `__init__` does.
        What the session then holds:
        - built with no certificate (an IPv4 host, or any answer but "y"): the prompted
          credentials and host, verification off, no certificate, no fetch;
        - built with a certificate for a host that is not an absolute path: verification on,
          one fetch, and the certificate file is the one just written;
        - loaded from an existing file that asks for verification: the certificate is fetched
          AGAIN, because the verify setter tests the default empty certificate name, which
          resolves to the working directory itself; and the session then names the file's
          `verifyFile`, which need not exist, with verification on. */
    method Setup(p: Prompts) returns (r: Outcome<ConfigError>, ghost built: bool)
      requires State() == ConfigState(DefaultWsdlFileName, DefaultCfgFileName, "", "", "", "", false)
      requires localDir == env.cwd
      modifies this, env
      ensures var wsdlFound := FileLocation(old(wsdlFileName), localDir) in old(env.files);
              var cfgFound := FileLocation(old(cfgFileName), localDir) in old(env.files);
              && (!wsdlFound ==>
                    && r == Fail(WsdlNotFound) && !built
                    && State() == old(State())
                    && env.files == old(env.files) && env.fetches == old(env.fetches))
              && (wsdlFound ==> && wsdlFileName == localDir + old(wsdlFileName)
                                && (built <==> !cfgFound))
              && (r == Fail(CertDownloadFailed) ==> built)
              && (r.Pass? || r == Fail(CfgRemoveFailed) ==> cfgFileName == localDir + old(cfgFileName))
              && (r == Fail(CfgRemoveFailed) ==> cfgFileName !in env.files)
      ensures var plainDir := localDir != [] && localDir[|localDir| - 1] != '/';
              built && plainDir && (env.inetAton(p.host) || p.useCertificates != "y") ==>
                && r == Pass && !verify
                && username == p.username && password == p.password && url == p.host
                && certFileName == "" && env.fetches == old(env.fetches)
      ensures var plainDir := localDir != [] && localDir[|localDir| - 1] != '/';
              built && plainDir && !env.inetAton(p.host) && p.useCertificates == "y"
              && !StartsWith(p.host, "/") && r == Pass ==>
                && verify && username == p.username && password == p.password && url == p.host
                && certFileName == CertFileName(localDir, p.host) && certFileName in env.files
                && env.fetches == old(env.fetches) + [Fetch(p.host, CertPort)]
      ensures var wsdlFound := FileLocation(old(wsdlFileName), localDir) in old(env.files);
              var cfgPath := localDir + DefaultCfgFileName;
              var parsed := cfgPath in old(env.files) && old(env.files)[cfgPath].CfgJson?;
              var d := if parsed then old(env.files)[cfgPath].doc else CfgDoc(None, None, None, None, None);
              wsdlFound && !built && localDir != [] && localDir !in old(env.files)
              && KeysRead(d) >= 4 && d.verify.value ==>
                && env.fetches == old(env.fetches) + [Fetch(d.url.value, CertPort)]
                && (&& KeysRead(d) == 5 && cfgFileName in env.files
                    && d.verifyFile.value !in old(env.files)
                    && d.verifyFile.value != CertFileName(localDir, d.url.value)
                    ==> verify && certFileName == d.verifyFile.value && certFileName !in env.files)
    {
      built := false;
      var wsdlFileFound := CheckFileExists(wsdlFileName, localDir);
      if !wsdlFileFound {
        return Fail(WsdlNotFound), built;
      }
      wsdlFileName := localDir + wsdlFileName;
      var cfgFileFound := CheckFileExists(cfgFileName, localDir);
      if !cfgFileFound {
        built := true;
        r := BuildThenLoad(p);
        return;
      }
      if localDir != [] {
        assert FileLocation(certFileName, localDir) == localDir;
      }
      r := LoadFromWorkingDir();
    }
  }

  /** Turning verification on twice on the SAME configuration object, for a host that is
      not an absolute path (the second time only if the first did not raise), fetches its
      certificate at most once: the first fetch leaves a file the second check finds. A new
      session does not inherit this; see `Setup`. */
  method VerifyTwiceFetchesOnce(c: AxlConfig)
    requires !StartsWith(c.url, "/")
    modifies c, c.env
    ensures |c.env.fetches| <= |old(c.env.fetches)| + 1
  {
    var first := c.SetCucmVerify(true);
    if first.Pass? {
      CertFoundWhereWritten(c.localDir, c.url);
      var second := c.SetCucmVerify(true);
    }
  }
}
