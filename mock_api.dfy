/** The development stub that replaces `window.fetch`: a first-match table of
    URL fragments and HTTP methods, each answered by a canned response, with
    every other request handed to the original `fetch`. */
module MockApi {
  import opened Wrappers
  import Text

  /** The canned responses, one per rule. */
  datatype Mock = DeviceLocationMock | DeviceStatusMock | QodMock | SmsMock | EmergencyDataMock

  /** One `if (url.includes(fragment) && options.method === method)` test. */
  datatype Rule = Rule(fragment: string, verb: string, mock: Mock)

  /** The tests in source order. */
  const Rules: seq<Rule> := [
    Rule("/device-location/", "POST", DeviceLocationMock),
    Rule("/device-status/", "GET", DeviceStatusMock),
    Rule("/qod/sessions", "POST", QodMock),
    Rule("/sms/messages", "POST", SmsMock),
    Rule("/emergency-data", "POST", EmergencyDataMock)
  ]

  /** The `options` argument: absent, or an object whose `method` (here `verb`) may be unset. */
  datatype FetchOptions = NoOptions | Options(verb: Option<string>)

  /** What the replacement `fetch` does with a call. `Failed` is the TypeError
      raised by reading `options.method` when `options` is undefined. */
  datatype Dispatch = Mocked(mock: Mock) | PassThrough | Failed

  /** A rule answers the call. */
  predicate Fires(rule: Rule, url: string, options: FetchOptions) {
    Text.Contains(url, rule.fragment) && options.Options? && options.verb == Some(rule.verb)
  }

  /** The chain of tests. `options.method` is only read once a fragment matched,
      because `&&` short-circuits. */
  function DispatchBy(rules: seq<Rule>, url: string, options: FetchOptions): (d: Dispatch)
    ensures options.Options? ==> !d.Failed?
    ensures options.Options? ==> (d.Mocked? <==> exists i | 0 <= i < |rules| :: Fires(rules[i], url, options))
    ensures d.Mocked? ==> exists i | 0 <= i < |rules| ::
      Fires(rules[i], url, options) && d.mock == rules[i].mock &&
      forall j | 0 <= j < i :: !Fires(rules[j], url, options)
    ensures options.NoOptions? ==>
      (d.Failed? <==> exists i | 0 <= i < |rules| :: Text.Contains(url, rules[i].fragment)) && !d.Mocked?
  {
    if rules == [] then PassThrough
    else if Text.Contains(url, rules[0].fragment) then
      if options.NoOptions? then Failed
      else if options.verb == Some(rules[0].verb) then Mocked(rules[0].mock)
      else DispatchBy(rules[1..], url, options)
    else DispatchBy(rules[1..], url, options)
  }

  /** The replacement `window.fetch`. */
  function InterceptedFetch(url: string, options: FetchOptions): Dispatch {
    DispatchBy(Rules, url, options)
  }

  /** A URL that contains none of the fragments is handed to the original `fetch`,
      whatever the options. */
  lemma {:induction false} UnmatchedPassesThrough(rules: seq<Rule>, url: string, options: FetchOptions)
    requires forall i | 0 <= i < |rules| :: !Text.Contains(url, rules[i].fragment)
    ensures DispatchBy(rules, url, options) == PassThrough
  {
    if rules != [] {
      UnmatchedPassesThrough(rules[1..], url, options);
    }
  }

  /** The first rule that fires answers the call, whatever the later rules say. */
  lemma {:induction false} FirstFiringRuleAnswers(rules: seq<Rule>, url: string, options: FetchOptions, i: nat)
    requires i < |rules| && Fires(rules[i], url, options)
    requires forall j | 0 <= j < i :: !Fires(rules[j], url, options)
    ensures DispatchBy(rules, url, options) == Mocked(rules[i].mock)
  {
    if i > 0 {
      FirstFiringRuleAnswers(rules[1..], url, options, i - 1);
    }
  }
}
