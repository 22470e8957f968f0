/** The `info url` subcommand: print `http://<ip>:<port>` of the first
    instance the registry returns for an exact application and id. */
module Url {
  import opened Optional
  import opened Instances
  import opened Decimal
  import opened Exits
  import opened Resolver

  const Scheme: string := "http://"

  const NotFoundPrefix: string := "Instance with App name: \""
  const NotFoundMiddle: string := "\", and Id: \""
  const NotFoundSuffix: string := "\" not found"

  /** The printed line for one instance: the scheme, the ip, a colon, the
      port as `%d` prints it, and a newline. */
  function UrlLine(inst: Instance): (line: string)
    ensures |line| == |Scheme| + |inst.ip| + 1 + |ShowInt(inst.port)| + 1
    ensures line[..|Scheme|] == Scheme
    ensures line[|Scheme|..|Scheme| + |inst.ip|] == inst.ip
    ensures line[|Scheme| + |inst.ip|] == ':'
    ensures line[|Scheme| + |inst.ip| + 1..|line| - 1] == ShowInt(inst.port)
    ensures line[|line| - 1] == '\n'
  {
    Scheme + inst.ip + ":" + ShowInt(inst.port) + "\n"
  }

  /** The position of the last ':' in `s`, if any. */
  function LastColon(s: string): (r: Option<nat>)
    ensures r.Some? ==> r.value < |s| && s[r.value] == ':'
    ensures r.Some? ==> forall j :: r.value < j < |s| ==> s[j] != ':'
    ensures r.None? ==> forall j :: 0 <= j < |s| ==> s[j] != ':'
  {
    if |s| == 0 then None
    else if s[|s| - 1] == ':' then Some(|s| - 1)
    else LastColon(s[..|s| - 1])
  }

  /** Reads a printed URL line back into its host and port. The port is what
      follows the last ':', so a host containing ':' is still recovered. */
  function ParseUrlLine(line: string): Option<(string, int)> {
    if |line| < |Scheme| + 1 || line[..|Scheme|] != Scheme || line[|line| - 1] != '\n' then None
    else
      var hostPort := line[|Scheme|..|line| - 1];
      match LastColon(hostPort)
      case None => None
      case Some(k) =>
        match ParseInt(hostPort[k + 1..])
        case None => None
        case Some(port) => Some((hostPort[..k], port))
  }

  /** Joining a host and a colon-free suffix with ':' can be undone at the last colon. */
  lemma {:induction false} SplitAtLastColon(host: string, suffix: string)
    requires forall j :: 0 <= j < |suffix| ==> suffix[j] != ':'
    ensures LastColon(host + ":" + suffix) == Some(|host|)
  {
    var joined := host + ":" + suffix;
    if |suffix| > 0 {
      var shorter := suffix[..|suffix| - 1];
      assert joined[|joined| - 1] == suffix[|suffix| - 1];
      assert joined[..|joined| - 1] == host + ":" + shorter;
      SplitAtLastColon(host, shorter);
    }
  }

  /** A line of the URL's shape parses into its host and the numeral's value. */
  lemma {:induction false} ParseJoined(host: string, numeral: string, port: int)
    requires forall j :: 0 <= j < |numeral| ==> numeral[j] != ':'
    requires ParseInt(numeral) == Some(port)
    ensures ParseUrlLine(Scheme + (host + ":" + numeral) + "\n") == Some((host, port))
  {
    var hostPort := host + ":" + numeral;
    var line := Scheme + hostPort + "\n";
    assert line[..|Scheme|] == Scheme;
    assert line[|Scheme|..|line| - 1] == hostPort;
    SplitAtLastColon(host, numeral);
    assert hostPort[..|host|] == host;
    assert hostPort[|host| + 1..] == numeral;
  }

  /** Round trip: the printed URL names exactly the instance's ip and port. */
  lemma {:induction false} UrlRoundTrip(inst: Instance)
    ensures ParseUrlLine(UrlLine(inst)) == Some((inst.ip, inst.port))
  {
    var n := ShowInt(inst.port);
    assert UrlLine(inst) == Scheme + (inst.ip + ":" + n) + "\n";
    ParseShowInt(inst.port);
    ParseJoined(inst.ip, n, inst.port);
  }

  /** The exit message for an empty answer quotes both the name and the id. */
  function NotFoundMessage(appName: string, instanceId: string): (m: string)
    ensures |m| == |NotFoundPrefix| + |appName| + |NotFoundMiddle| + |instanceId| + |NotFoundSuffix|
    ensures m[|NotFoundPrefix|..|NotFoundPrefix| + |appName|] == appName
    ensures var start := |NotFoundPrefix| + |appName| + |NotFoundMiddle|;
      m[start..start + |instanceId|] == instanceId
  {
    NotFoundPrefix + appName + NotFoundMiddle + instanceId + NotFoundSuffix
  }

  /** The subcommand: argument checks (name before id), one exact lookup, then
      exit code 3 on an empty answer or the URL of the FIRST instance only. */
  function UrlCommand(appName: string, instanceId: string, registry: Registry): (r: Run)
    ensures appName == "" ==> r == Run("", Help(AppNameEmptyErrorCode))
    ensures appName != "" && instanceId == "" ==> r == Run("", Help(IdEmptyErrorCode))
    ensures appName != "" && instanceId != "" && registry(ByAppAndId(appName, instanceId)) == [] ==>
      r == Run("", Failure(InfoUrlInstanceNotFoundCode, NotFoundMessage(appName, instanceId)))
    ensures appName != "" && instanceId != "" && registry(ByAppAndId(appName, instanceId)) != [] ==>
      var first := registry(ByAppAndId(appName, instanceId))[0];
      r.exit == Ok && ParseUrlLine(r.stdout) == Some((first.ip, first.port))
  {
    match CheckArgs(appName, instanceId)
    case Some(code) => Run("", Help(code))
    case None =>
      var instances := registry(ByAppAndId(appName, instanceId));
      if |instances| == 0 then
        Run("", Failure(InfoUrlInstanceNotFoundCode, NotFoundMessage(appName, instanceId)))
      else
        UrlRoundTrip(instances[0]);
        Run(UrlLine(instances[0]), Ok)
  }

}
