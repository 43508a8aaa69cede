/** Default-configuration generation (main.go:141-153, 179-214): a fixed
    skeleton, whose gateway address is replaced by the first discovered
    gateway, and whose API key is replaced by the outcome of pairing.
    Discovery, URL parsing and pairing are outside the model; their outcomes
    are inputs. */
module Defaults {
  import opened Wrappers
  import opened Config
  import Decimal

  const SkeletonAddr := "http://127.0.0.1:8080/"
  const SkeletonUrl := "http://127.0.0.1:8086/"
  const Placeholder := "change me"
  const DefaultBatchSize: nat := 20

  /** A gateway reported by discovery (`InternalIPAddress`, `InternalPort`). */
  datatype Gateway = Gateway(internalIPAddress: string, internalPort: int)

  /** The parts of a `url.URL` the model distinguishes. */
  datatype ParsedUrl = ParsedUrl(scheme: string, host: string, path: string)

  /** What `deconz.Pair` returns: a key, valid or not, and possibly an error. */
  datatype PairOutcome = PairOutcome(apiKey: string, err: Option<string>)

  /** The string of `url.URL{Scheme: "http", Host: "<ip>:<port>", Path: "/api"}`. */
  function GatewayAddr(g: Gateway): (addr: string)
    ensures |addr| >= 12 && addr[..7] == "http://" && addr[|addr| - 4..] == "/api"
  {
    "http://" + g.internalIPAddress + ":" + Decimal.FormatInt(g.internalPort) + "/api"
  }

  /** The gateway address `defaultConfiguration` ends up with: the skeleton's
      exactly when discovery failed. */
  function GeneratedAddr(discovery: Result<seq<Gateway>>): (addr: string)
    requires discovery.Ok? ==> discovery.value != []
    ensures addr == SkeletonAddr <==> discovery.Err?
  {
    if discovery.Ok? then
      var addr := GatewayAddr(discovery.value[0]);
      assert addr[|addr| - 1] == 'i' != SkeletonAddr[|SkeletonAddr| - 1];
      addr
    else SkeletonAddr
  }

  /** `host:port` splits uniquely at its last `:` when the port has none. */
  lemma SplitAtLastColon(a1: string, b1: string, a2: string, b2: string)
    requires ':' !in b1 && ':' !in b2
    requires a1 + ":" + b1 == a2 + ":" + b2
    ensures a1 == a2 && b1 == b2
  {
    var s := a1 + ":" + b1;
    assert forall k :: 0 <= k < |b1| ==> s[|a1| + 1 + k] == b1[k];
    assert forall k :: 0 <= k < |b2| ==> s[|a2| + 1 + k] == b2[k];
    assert s[|a1|] == ':' && s[|a2|] == ':';
    assert a1 == s[..|a1|] == a2;
    assert b1 == s[|a1| + 1..] == b2;
  }

  /** The `host:port` part sits between the scheme and the path. */
  lemma HostAndPortOf(g: Gateway)
    ensures var addr := GatewayAddr(g);
      addr[7..|addr| - 4] == g.internalIPAddress + ":" + Decimal.FormatInt(g.internalPort)
  {
    var hostPort := g.internalIPAddress + ":" + Decimal.FormatInt(g.internalPort);
    assert GatewayAddr(g) == "http://" + hostPort + "/api";
  }

  /** The generated address identifies the gateway: different gateways give
      different addresses, whatever their host strings. */
  lemma GatewayAddrInjective(g1: Gateway, g2: Gateway)
    ensures GatewayAddr(g1) == GatewayAddr(g2) <==> g1 == g2
  {
    if GatewayAddr(g1) == GatewayAddr(g2) {
      var p1, p2 := Decimal.FormatInt(g1.internalPort), Decimal.FormatInt(g2.internalPort);
      HostAndPortOf(g1);
      HostAndPortOf(g2);
      Decimal.FormatIntHasNoColon(g1.internalPort);
      Decimal.FormatIntHasNoColon(g2.internalPort);
      SplitAtLastColon(g1.internalIPAddress, p1, g2.internalIPAddress, p2);
      Decimal.FormatIntInjective(g1.internalPort, g2.internalPort);
    }
  }

  /** Only the first candidate matters, and a failed discovery is recognisable
      from the address: two discovery outcomes give the same address exactly
      when both failed or both succeeded with the same first gateway. */
  lemma GeneratedAddrDeterminesFirstCandidate(d1: Result<seq<Gateway>>, d2: Result<seq<Gateway>>)
    requires d1.Ok? ==> d1.value != []
    requires d2.Ok? ==> d2.value != []
    ensures GeneratedAddr(d1) == GeneratedAddr(d2) <==>
      (d1.Err? && d2.Err?) || (d1.Ok? && d2.Ok? && d1.value[0] == d2.value[0])
  {
    if d1.Ok? && d2.Ok? {
      GatewayAddrInjective(d1.value[0], d2.value[0]);
    }
  }

  /** `defaultConfiguration`. The source indexes the discovered slice without
      a length check, so a successful discovery must report a gateway. */
  method DefaultConfiguration(discovery: Result<seq<Gateway>>) returns (c: Configuration)
    requires discovery.Ok? ==> discovery.value != []
    ensures c.deconz.addr == GeneratedAddr(discovery)
    ensures c.deconz.apiKey == Placeholder
    ensures c.influxdb2 == Influxdb2Config(SkeletonUrl, Placeholder, Placeholder, Placeholder, DefaultBatchSize)
  {
    c := Configuration(
      DeconzConfig(SkeletonAddr, Placeholder),
      Influxdb2Config(SkeletonUrl, Placeholder, Placeholder, Placeholder, DefaultBatchSize));
    if discovery.Err? {
      return;
    }
    var gateway := discovery.value[0];
    c := c.(deconz := c.deconz.(addr := GatewayAddr(gateway)));
  }

  /** The configuration `outputDefaultConfiguration` serialises: the default
      configuration, with the API key replaced by whatever pairing returned
      whenever the gateway address parses as a URL, even if pairing failed. */
  method OutputDefaultConfiguration(
    discovery: Result<seq<Gateway>>, parseUrl: string -> Result<ParsedUrl>, pair: ParsedUrl -> PairOutcome)
    returns (c: Configuration)
    requires discovery.Ok? ==> discovery.value != []
    ensures c.deconz.addr == GeneratedAddr(discovery)
    ensures parseUrl(GeneratedAddr(discovery)).Ok? ==>
      c.deconz.apiKey == pair(parseUrl(GeneratedAddr(discovery)).value).apiKey
    ensures parseUrl(GeneratedAddr(discovery)).Err? ==> c.deconz.apiKey == Placeholder
    ensures c.influxdb2 == Influxdb2Config(SkeletonUrl, Placeholder, Placeholder, Placeholder, DefaultBatchSize)
  {
    c := DefaultConfiguration(discovery);
    var u := parseUrl(c.deconz.addr);
    if u.Ok? {
      var paired := pair(u.value);
      c := c.(deconz := c.deconz.(apiKey := paired.apiKey));
    }
  }
}
