# deflux core, modelled in Dafny

deflux forwards sensor events from a deCONZ home-automation gateway to an
InfluxDB 2 time-series backend. This project models the three decision
procedures in `main.go` once their I/O is abstracted:

- **Configuration resolution** (`readConfiguration`, `loadConfiguration`),
  module `Config` in `config.dfy`. The working-directory `deflux.yml` is tried
  before `/etc/deflux.yml`. The first readable file wins. When both fail, the
  error carries both causes, working-directory cause first. `os.Getwd`, each
  file read and YAML decoding are inputs. The result records the paths that
  were read, so "`/etc` is never read" can be stated.
- **Default-configuration generation** (`defaultConfiguration` and the pairing
  step of `outputDefaultConfiguration`), module `Defaults` in `defaults.dfy`.
  A fixed skeleton is built. A successful discovery overwrites only the gateway
  address, using the first candidate. If that address parses as a URL, the API
  key is overwritten with whatever pairing returned. Discovery, URL parsing and
  pairing outcomes are inputs. The methods build the configuration value and
  then update its fields, as the source does. The `%d` rendering of the port
  is in module `Decimal` (`decimal.dfy`), with a parser that inverts it.
- **Forwarding loop** (the `for`/`select` loop in `main`), module `Forwarding`
  in `forwarding.dfy`. Events whose `Timeseries()` fails are dropped. Every
  other event yields one point named `deflux_<sensor type>`, written in arrival
  order. The loop is a method over a finite prefix of the event stream. The
  writer is a class whose point buffer grows by `WritePoint`. Its loop
  invariant ties the written points to the function `WrittenPoints` of the
  processed prefix. Lemmas prove that this function is the filter-map of the
  stream.

`Wrappers` (`wrappers.dfy`) holds `Result` and `Option`. A Go `error` is
represented by the text of its `Error()`.

## Behaviour of the code worth noting

- `defaultConfiguration` indexes `discovered[0]` without a length check
  (main.go:205), which panics on an empty slice. `Defaults.DefaultConfiguration`
  therefore requires a successful discovery to be non-empty.
- `outputDefaultConfiguration` assigns `string(apikey)` to `APIKey` whenever
  the address parses, even when `Pair` returned an error (main.go:146-152).
  The model does the same.
- When discovery fails, `url.Parse` still runs on the skeleton address
  `http://127.0.0.1:8080/` (main.go:146), and pairing is attempted against it
  whenever the parse succeeds.

## Model

| member | source | states |
|---|---|---|
| Config.JoinPath | main.go:111 | `path.Join` of a directory and a file name: the name is the suffix; a non-empty directory precedes it with exactly one `/` between them; an empty directory leaves the name alone |
| Config.ReadConfiguration | main.go:103-128 | only the working-directory path, then `/etc/deflux.yml`, are read, in that order; every path read before the last failed, so the first success stops the search; data is only the content of the last path read; an unknown working directory is reported as such with nothing read; when both reads fail the error is `"\n" + pwd cause + "\n" + etc cause` |
| Config.WorkingDirectoryShadowsEtc | main.go:111-116 | a readable working-directory file is returned, `/etc` is not read (unless it is the same path), and the content of `/etc` makes no difference |
| Config.ReadSucceedsIff | main.go:106-127 | reading succeeds iff the working directory is known and one of the two files is readable; the data then comes from the working-directory file if it is readable, otherwise from `/etc` |
| Config.LoadConfiguration | main.go:89-101 | a configuration is returned iff both reading and decoding succeed, and it is the decoded value; otherwise the error names the failing stage and carries its cause |
| Decimal.FormatNat | main.go:208 | `%d` of a natural number: non-empty, digits only, no leading zero |
| Decimal.FormatInt | main.go:208 | `%d` of a Go `int`: non-empty, starting with `-` exactly for negative values, digits otherwise; `Decimal.ParseFormatInt` inverts it |
| Decimal.ParseFormatNat | main.go:208 | parsing the decimal rendering gives the number back |
| Decimal.ParseFormatInt | main.go:208 | the same round trip for negative numbers, rendered with a leading `-` |
| Decimal.FormatIntInjective | main.go:208 | two ports render alike iff they are equal |
| Decimal.FormatIntHasNoColon | main.go:208 | a rendered port never contains the `:` that separates it from the host |
| Defaults.GatewayAddr | main.go:206-211 | the `url.URL{Scheme: "http", Host: "<ip>:<port>", Path: "/api"}` string starts with `http://` and ends with `/api`; `Defaults.GatewayAddrInjective` shows it identifies the gateway |
| Defaults.GeneratedAddr | main.go:197-211 | the address chosen by `defaultConfiguration` is the skeleton's exactly when discovery failed, otherwise candidate 0's; `Defaults.GeneratedAddrDeterminesFirstCandidate` shows later candidates never matter |
| Defaults.HostAndPortOf | main.go:206-208 | the `<ip>:<port>` host sits between the scheme and the path of the generated address |
| Defaults.SplitAtLastColon | main.go:208 | `host:port` splits uniquely at its last `:` when the port has none, whatever the host |
| Defaults.GatewayAddrInjective | main.go:206-211 | two gateways get the same `http://<ip>:<port>/api` address iff they are the same gateway |
| Defaults.GeneratedAddrDeterminesFirstCandidate | main.go:197-211 | two discovery outcomes give the same gateway address iff both failed or both found the same first candidate; later candidates never matter |
| Defaults.DefaultConfiguration | main.go:179-214 | the API key and the whole backend section keep the skeleton values (`change me`, `http://127.0.0.1:8086/`, batch size 20); the address is `http://127.0.0.1:8080/` if discovery failed, otherwise the first candidate's `http://<ip>:<port>/api` |
| Defaults.OutputDefaultConfiguration | main.go:141-153 | the address and backend section are those of the default configuration; if the address parses, the API key is the key pairing returned, even when pairing also reported an error; otherwise the key stays `change me` |
| Forwarding.Measurement | main.go:56 | `deflux_%s`: the prefix `deflux_` followed by the sensor type, which can be read back from the name |
| Forwarding.PointOf | main.go:55-58 | the point of an event carries its sensor type after the `deflux_` prefix and the event's tags and fields unchanged |
| Forwarding.WrittenPoints | main.go:45-63 | at most one point per event, each with a measurement starting with `deflux_` |
| Forwarding.Derivable | main.go:49-53 | an event is kept iff it occurs in the stream and its `Timeseries()` succeeds |
| Forwarding.ToPoints | main.go:55-60 | one point per event, at the same position, named `deflux_<type>` and carrying that event's tags and fields |
| Forwarding.WrittenPointsAppend | main.go:45-63 | processing two stretches of the stream writes the points of the first, then those of the second |
| Forwarding.DerivableAppend | main.go:49-53 | filtering distributes over concatenation of streams |
| Forwarding.ToPointsAppend | main.go:55-60 | mapping to points distributes over concatenation |
| Forwarding.WrittenPointsIsFilterMap | main.go:45-63 | the written points equal the filter (by `Timeseries()` success) then map (to points) of the stream, in arrival order |
| Forwarding.DroppedEventWritesNothing | main.go:49-53 | an event whose `Timeseries()` fails changes nothing written, wherever it occurs in the stream |
| Forwarding.OnePointPerDerivableEvent | main.go:48-60 | the number of points written equals the number of events whose `Timeseries()` succeeds |
| Forwarding.TemperatureAroundUnknown | main.go:48-60 | two temperature events around an event whose series fails give exactly two points, both `deflux_temperature`, in order |
| Forwarding.WriteApi.constructor | main.go:41-43 | a new writer has written nothing |
| Forwarding.WriteApi.WritePoint | main.go:55-60 | the point is appended to what the writer holds |
| Forwarding.Forward | main.go:45-63 | after the loop has processed the events, the writer holds what it held before followed by `WrittenPoints` of those events |

## Left out

- File reads, `os.Getwd`, YAML `Unmarshal` and `Marshal`: their outcomes are parameters of `Config.LoadConfiguration` and `Config.ReadConfiguration`; serialising and printing the generated configuration is not modelled.
- `deconz.Discover`, `deconz.Pair`, `EventReader`, `Dial` and `SensorEventReader.Start` (`sensorEventChan`): network clients in a package that is not part of this model; discovery and pairing outcomes are parameters, and the event stream is a finite sequence.
- The goroutine and the unbuffered channel between event reader and loop: concurrency; the loop sees the events in the order they were sent.
- `Sensor.Timeseries()` decoding rules: they live in the `deconz` package; the model takes it as a deterministic function from an event to tags and fields or an error.
- InfluxDB client construction, batching, flushing and write errors: an external library; `WritePoint` appends to a sequence.
- Timestamps: `time.Now()` is not modelled, so points carry no time.
- Config.JoinPath: does not model `path.Clean`'s removal of `.`, `..` and repeated `/` elements from the working directory.
- Defaults.GatewayAddr: does not model `url.URL.String`'s escaping of the host.
- The `main` function's own control flow (printing the default configuration on a load error, panicking on a connection error) and all `log` output.
