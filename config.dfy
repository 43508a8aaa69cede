/** The configuration record and its resolution: the file in the working
    directory is tried before `/etc/deflux.yml` (main.go:89-128). File reads,
    `os.Getwd` and YAML decoding are outside the model; their outcomes are
    inputs. */
module Config {
  import opened Wrappers

  newtype byte = x: int | 0 <= x < 256

  type Bytes = seq<byte>

  /** Gateway connection: base address and pairing credential. */
  datatype DeconzConfig = DeconzConfig(addr: string, apiKey: string)

  /** Time-series backend connection (`influxdb2ConfigProxy`); `BatchSize` is a Go `uint`. */
  datatype Influxdb2Config = Influxdb2Config(
    url: string, org: string, token: string, bucket: string, batchSize: nat)

  datatype Configuration = Configuration(deconz: DeconzConfig, influxdb2: Influxdb2Config)

  const YmlFileName := "deflux.yml"

  /** `path.Join(dir, name)` for a clean directory and a plain file name:
      exactly one `/` separates a non-empty directory from the name, and an
      empty directory leaves the name alone. */
  function JoinPath(dir: string, name: string): (p: string)
    ensures |p| >= |name| && p[|p| - |name|..] == name
    ensures dir == [] ==> p == name
    ensures dir != [] ==> p[..|p| - |name|] == (if dir[|dir| - 1] == '/' then dir else dir + "/")
  {
    if dir == [] then name
    else if dir[|dir| - 1] == '/' then dir + name
    else dir + "/" + name
  }

  function PwdPath(pwd: string): string {
    JoinPath(pwd, YmlFileName)
  }

  const EtcPath := JoinPath("/etc", YmlFileName)

  /** The data `readConfiguration` returns, together with the paths it read, in order. */
  datatype ReadOutcome = ReadOutcome(data: Result<Bytes>, consulted: seq<string>)

  /** `readConfiguration`: the first readable file among the working-directory
      file and `/etc/deflux.yml` wins; `readFile` gives the outcome of reading a path. */
  function ReadConfiguration(wd: Result<string>, readFile: string -> Result<Bytes>): (r: ReadOutcome)
    // the paths are tried in priority order and no other path is read
    ensures wd.Err? ==> r.consulted == []
    ensures wd.Ok? ==> r.consulted == [PwdPath(wd.value)] || r.consulted == [PwdPath(wd.value), EtcPath]
    // every path read before the last one failed: the first success stops the search
    ensures forall i :: 0 <= i < |r.consulted| - 1 ==> readFile(r.consulted[i]).Err?
    // data is returned only as the content of the last path read
    ensures r.data.Ok? ==> r.consulted != [] && r.data == readFile(r.consulted[|r.consulted| - 1])
    // an error reports every cause, the working-directory cause first
    ensures wd.Err? ==> r.data == Err("unable to get current work directory: " + wd.error)
    ensures wd.Ok? && r.data.Err? ==>
      r.consulted == [PwdPath(wd.value), EtcPath] &&
      readFile(PwdPath(wd.value)).Err? && readFile(EtcPath).Err? &&
      r.data.error == "\n" + readFile(PwdPath(wd.value)).error + "\n" + readFile(EtcPath).error
  {
    match wd
    case Err(e) => ReadOutcome(Err("unable to get current work directory: " + e), [])
    case Ok(pwd) =>
      var pwdRead := readFile(PwdPath(pwd));
      if pwdRead.Ok? then
        ReadOutcome(pwdRead, [PwdPath(pwd)])
      else
        var etcRead := readFile(EtcPath);
        if etcRead.Err? then
          ReadOutcome(Err("\n" + pwdRead.error + "\n" + etcRead.error), [PwdPath(pwd), EtcPath])
        else
          ReadOutcome(etcRead, [PwdPath(pwd), EtcPath])
  }

  /** A readable working-directory file shadows `/etc/deflux.yml`: its content
      is returned, `/etc` is not read, and what `/etc` holds makes no difference. */
  lemma WorkingDirectoryShadowsEtc(pwd: string, read1: string -> Result<Bytes>, read2: string -> Result<Bytes>)
    requires read1(PwdPath(pwd)).Ok? && read1(PwdPath(pwd)) == read2(PwdPath(pwd))
    ensures ReadConfiguration(Ok(pwd), read1) == ReadConfiguration(Ok(pwd), read2)
    ensures ReadConfiguration(Ok(pwd), read1).data == read1(PwdPath(pwd))
    ensures EtcPath !in ReadConfiguration(Ok(pwd), read1).consulted || PwdPath(pwd) == EtcPath
  {
  }

  /** Reading fails exactly when the working directory is unknown or both files are unreadable;
      on success the data comes from the working-directory file if it is readable, else from `/etc`. */
  lemma ReadSucceedsIff(wd: Result<string>, readFile: string -> Result<Bytes>)
    ensures ReadConfiguration(wd, readFile).data.Ok? <==>
      wd.Ok? && (readFile(PwdPath(wd.value)).Ok? || readFile(EtcPath).Ok?)
    ensures ReadConfiguration(wd, readFile).data.Ok? ==>
      ReadConfiguration(wd, readFile).data ==
        (if readFile(PwdPath(wd.value)).Ok? then readFile(PwdPath(wd.value)) else readFile(EtcPath))
  {
  }

  /** `loadConfiguration`: read, then decode with `unmarshal`; a failure of
      either step is reported with its stage and yields no configuration. */
  function LoadConfiguration(
    wd: Result<string>, readFile: string -> Result<Bytes>, unmarshal: Bytes -> Result<Configuration>)
    : (r: Result<Configuration>)
    ensures var read := ReadConfiguration(wd, readFile).data;
      && (r.Ok? <==> read.Ok? && unmarshal(read.value).Ok?)
      && (r.Ok? ==> r == unmarshal(read.value))
      && (read.Err? ==> r.error == "could not read configuration: " + read.error)
      && (read.Ok? && r.Err? ==> r.error == "could not parse configuration: " + unmarshal(read.value).error)
  {
    var read := ReadConfiguration(wd, readFile);
    match read.data
    case Err(e) => Err("could not read configuration: " + e)
    case Ok(data) =>
      match unmarshal(data)
      case Err(e) => Err("could not parse configuration: " + e)
      case Ok(config) => Ok(config)
  }
}
