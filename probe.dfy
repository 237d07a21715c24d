/** One connectivity probe round (`checkConnectivity` in app.js): three image
    requests to unrelated hosts, each settled by whichever of load, error or the
    1.5 second timeout comes first, and combined with `results.some`. */
module Probe {
  import opened Wrappers
  import Text

  /** The probed endpoints, in source order. */
  const Endpoints: seq<string> := [
    "https://www.cloudflare.com/cdn-cgi/trace",
    "https://www.google.com/favicon.ico",
    "https://www.microsoft.com/favicon.ico"
  ]

  /** The first of the three callbacks to fire for one image request; later
      calls of `resolve` have no effect on a settled promise. */
  datatype Settlement = Loaded | Errored | TimedOut

  /** Everything a round depends on. `timestamp` is `Date.now()`, `nonce` is
      `Math.floor(Math.random() * 10000)`, `settled` holds one settlement per
      endpoint, and `threw` says that the body raised an exception. */
  datatype RoundInput = RoundInput(
    navigatorOnLine: bool,
    timestamp: nat,
    nonce: nat,
    settled: seq<Settlement>,
    threw: bool)

  /** The value an image request's promise resolves to. */
  function Resolved(s: Settlement): bool {
    s == Loaded
  }

  /** `results.map(...)`: the resolved values, endpoint by endpoint. */
  function Results(settled: seq<Settlement>): (rs: seq<bool>)
    ensures |rs| == |settled|
    ensures forall i | 0 <= i < |rs| :: rs[i] == Resolved(settled[i])
  {
    if settled == [] then [] else [Resolved(settled[0])] + Results(settled[1..])
  }

  /** `results.some(result => result === true)`. */
  function AnyTrue(results: seq<bool>): (r: bool)
    ensures r <==> exists i | 0 <= i < |results| :: results[i]
  {
    if results == [] then false else results[0] || AnyTrue(results[1..])
  }

  /** The verdict of `checkConnectivity`. */
  function Verdict(round: RoundInput): (online: bool)
    ensures online <==>
      round.navigatorOnLine && !round.threw &&
      exists i | 0 <= i < |round.settled| :: round.settled[i] == Loaded
  {
    if !round.navigatorOnLine then false
    else if round.threw then false
    else AnyTrue(Results(round.settled))
  }

  /** The cache-defeating query appended to every endpoint of a round. */
  function CacheBuster(timestamp: nat, nonce: nat): string {
    "?t=" + Text.Decimal(timestamp) + "&r=" + Text.Decimal(nonce)
  }

  /** The three image URLs of one round. */
  function ProbeUrls(timestamp: nat, nonce: nat): (urls: seq<string>)
    ensures |urls| == |Endpoints|
    ensures forall i | 0 <= i < |urls| ::
      |Endpoints[i]| <= |urls[i]| && urls[i][..|Endpoints[i]|] == Endpoints[i]
  {
    seq(|Endpoints|, i requires 0 <= i < |Endpoints| => Endpoints[i] + CacheBuster(timestamp, nonce))
  }

  /** Reads `t` and `r` back out of a query built by `CacheBuster`. */
  function ParseCacheBuster(q: string): Option<(nat, nat)> {
    if |q| < 3 || q[..3] != "?t=" then None
    else
      var rest := q[3..];
      var k := Text.FirstIndex(rest, '&');
      if k == 0 || k + 3 > |rest| || rest[k..k + 3] != "&r=" then None
      else
        var t := rest[..k];
        var r := rest[k + 3..];
        if r == [] || !Text.AllDigits(t) || !Text.AllDigits(r) then None
        else Some((Text.ParseDecimal(t), Text.ParseDecimal(r)))
  }

  /** The query is unambiguous: it gives back the round's timestamp and nonce. */
  lemma CacheBusterRoundTrip(timestamp: nat, nonce: nat)
    ensures ParseCacheBuster(CacheBuster(timestamp, nonce)) == Some((timestamp, nonce))
  {
    var t, r := Text.Decimal(timestamp), Text.Decimal(nonce);
    var q := CacheBuster(timestamp, nonce);
    assert q[..3] == "?t=";
    var rest := q[3..];
    assert rest == t + "&r=" + r;
    var k := Text.FirstIndex(rest, '&');
    assert rest[|t|] == '&';
    assert k == |t|;
    assert rest[k..k + 3] == "&r=";
    assert rest[..k] == t;
    assert rest[k + 3..] == r;
    Text.DecimalRoundTrip(timestamp);
    Text.DecimalRoundTrip(nonce);
  }

  /** All URLs of a round carry the same `t` and `r`, and the URL of each
      endpoint determines them. */
  lemma ProbeUrlsShareParameters(timestamp: nat, nonce: nat, i: nat)
    requires i < |Endpoints|
    ensures var urls := ProbeUrls(timestamp, nonce);
      ParseCacheBuster(urls[i][|Endpoints[i]|..]) == Some((timestamp, nonce))
  {
    var urls := ProbeUrls(timestamp, nonce);
    assert urls[i][|Endpoints[i]|..] == CacheBuster(timestamp, nonce);
    CacheBusterRoundTrip(timestamp, nonce);
  }

  /** Two rounds with different timestamps request different URLs from every
      endpoint, so no intermediary can answer a round from an earlier one. */
  lemma DistinctRoundsDistinctUrls(t1: nat, n1: nat, t2: nat, n2: nat, i: nat)
    requires i < |Endpoints| && (t1 != t2 || n1 != n2)
    ensures ProbeUrls(t1, n1)[i] != ProbeUrls(t2, n2)[i]
  {
    if ProbeUrls(t1, n1)[i] == ProbeUrls(t2, n2)[i] {
      ProbeUrlsShareParameters(t1, n1, i);
      ProbeUrlsShareParameters(t2, n2, i);
    }
  }
}
