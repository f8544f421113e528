/** The tunnel settings of src/html.ts: `resolveTunnelConfig`, which reads the
    `tunnel` option, and `pollTunnelUrl`, which waits for the tunnel provider
    to report a URL. */
module Tunnel {
  import opened Wrappers
  import opened Text

  /** The `tunnel` option: a flag, or a fixed tunnel URL. */
  datatype TunnelOption = TunnelFlag(enabled: bool) | TunnelUrl(url: string)

  /** `FrontendURLResult` */
  datatype FrontendUrlResult = FrontendUrlResult(frontendUrl: string, frontendPort: int, usingLocalhost: bool)

  const HttpsScheme := "https://"

  /** The longest prefix of `s` made of decimal digits. */
  function DigitRun(s: string): (r: string)
    ensures |r| <= |s| && r == s[..|r|] && AllDigits(r)
    ensures |r| < |s| ==> !IsDigit(s[|r|])
  {
    if |s| == 0 || !IsDigit(s[0]) then ""
    else
      var t := DigitRun(s[1..]);
      assert [s[0]] + t == s[..|t| + 1];
      [s[0]] + t
  }

  /** The match of `(https:\/\/[^:]+):([0-9]+)` starting at `i`, as its two
      groups: the scheme with the host up to the first colon after it (at
      least one character), then the whole run of digits after that colon (at
      least one). `[^:]` excludes only the colon, so backtracking cannot find
      another split. */
  function MatchAt(s: string, i: nat): Option<(string, string)>
    requires i <= |s|
  {
    if !StartsWith(s[i..], HttpsScheme) then None
    else
      var j := FirstIndex(s[i + 8..], ':');
      if j <= 0 then None
      else
        var colon := i + 8 + j;
        var digits := DigitRun(s[colon + 1..]);
        if |digits| == 0 then None else Some((s[i..colon], digits))
  }

  /** `s.match(...)`: the leftmost match at or after `i`. */
  function FindMatch(s: string, i: nat): Option<(string, string)>
    requires i <= |s|
    decreases |s| - i
  {
    match MatchAt(s, i)
    case Some(groups) => Some(groups)
    case None => if i == |s| then None else FindMatch(s, i + 1)
  }

  /** `resolveTunnelConfig(options)`; a URL that does not match throws. */
  function ResolveTunnelConfig(tunnel: TunnelOption): (r: Result<FrontendUrlResult, string>)
    ensures tunnel == TunnelFlag(false) ==> r == Ok(FrontendUrlResult("", -1, true))
    ensures tunnel == TunnelFlag(true) ==> r == Ok(FrontendUrlResult("", -1, false))
    ensures tunnel.TunnelUrl? && r.Ok? ==>
      var u := r.value.frontendUrl;
      |u| > 8 && StartsWith(u, HttpsScheme) && NoChar(u[8..], ':') &&
      r.value.frontendPort >= 0 && !r.value.usingLocalhost
    ensures tunnel.TunnelUrl? && r.Err? ==> r.error == "Invalid tunnel URL: " + tunnel.url
  {
    match tunnel
    case TunnelFlag(enabled) => Ok(FrontendUrlResult("", -1, !enabled))
    case TunnelUrl(url) =>
      match FindMatch(url, 0)
      case None => Err("Invalid tunnel URL: " + url)
      case Some(groups) =>
        FindMatchSound(url, 0);
        Ok(FrontendUrlResult(groups.0, DigitsValue(groups.1), false))
  }

  /** What a match's groups look like. */
  lemma MatchAtShape(s: string, i: nat)
    requires i <= |s| && MatchAt(s, i).Some?
    ensures
      var g := MatchAt(s, i).value;
      |g.0| > 8 && StartsWith(g.0, HttpsScheme) && NoChar(g.0[8..], ':') && |g.1| > 0 && AllDigits(g.1)
  {
    var j := FirstIndex(s[i + 8..], ':');
    var colon := i + 8 + j;
    assert s[i..colon][..8] == s[i..][..8];
    assert forall k :: 0 <= k < |s[i..colon][8..]| ==> s[i..colon][8..][k] == s[i + 8..][k];
  }

  /** The leftmost match: found at some position, with none before it. */
  lemma {:induction false} FindMatchSound(s: string, i: nat)
    requires i <= |s| && FindMatch(s, i).Some?
    ensures
      var g := FindMatch(s, i).value;
      |g.0| > 8 && StartsWith(g.0, HttpsScheme) && NoChar(g.0[8..], ':') && |g.1| > 0 && AllDigits(g.1)
    ensures exists k :: i <= k <= |s| && MatchAt(s, k) == FindMatch(s, i) &&
                        forall k' :: i <= k' < k ==> MatchAt(s, k').None?
    decreases |s| - i
  {
    if MatchAt(s, i).Some? {
      MatchAtShape(s, i);
    } else {
      FindMatchSound(s, i + 1);
      var k :| i + 1 <= k <= |s| && MatchAt(s, k) == FindMatch(s, i + 1) &&
               forall k' :: i + 1 <= k' < k ==> MatchAt(s, k').None?;
      assert MatchAt(s, k) == FindMatch(s, i);
    }
  }

  /** No match anywhere from `i` on means no result, and back. */
  lemma {:induction false} FindMatchNone(s: string, i: nat)
    requires i <= |s|
    ensures FindMatch(s, i).None? <==> forall k :: i <= k <= |s| ==> MatchAt(s, k).None?
    decreases |s| - i
  {
    if i < |s| {
      FindMatchNone(s, i + 1);
    }
  }

  /** A fixed tunnel URL is rejected exactly when the pattern occurs nowhere. */
  lemma TunnelUrlRejected(url: string)
    ensures ResolveTunnelConfig(TunnelUrl(url)).Err? <==> forall k :: 0 <= k <= |url| ==> MatchAt(url, k).None?
  {
    FindMatchNone(url, 0);
  }

  lemma {:induction false} DigitRunOf(digits: string, rest: string)
    requires AllDigits(digits) && (rest == "" || !IsDigit(rest[0]))
    ensures DigitRun(digits + rest) == digits
    decreases |digits|
  {
    if |digits| > 0 {
      assert (digits + rest)[1..] == digits[1..] + rest;
      DigitRunOf(digits[1..], rest);
      assert [digits[0]] + digits[1..] == digits;
    } else {
      assert digits + rest == rest;
    }
  }

  /** At the start of `https://<host>:<tail>` the pattern matches exactly
      when the tail opens with a digit. */
  lemma MatchAtStart(host: string, tail: string)
    requires |host| > 0 && NoChar(host, ':')
    ensures
      var d := DigitRun(tail);
      MatchAt(HttpsScheme + (host + [':'] + tail), 0) ==
        if |d| == 0 then None else Some((HttpsScheme + host, d))
  {
    var s := HttpsScheme + (host + [':'] + tail);
    assert s[0..] == s;
    assert s[..8] == HttpsScheme;
    assert s[8..] == host + [':'] + tail;
    FirstIndexAfter(host, ':', tail);
    var colon := 8 + |host|;
    assert s[colon + 1..] == tail;
    assert s[0..colon] == HttpsScheme + host;
  }

  /** `https://<host>:<port>`, possibly followed by a path, gives the URL
      without the port and the port as a number. */
  lemma TunnelUrlAccepted(host: string, port: nat, rest: string)
    requires |host| > 0 && NoChar(host, ':')
    requires rest == "" || !IsDigit(rest[0])
    ensures ResolveTunnelConfig(TunnelUrl(HttpsScheme + host + ":" + NatToString(port) + rest)) ==
            Ok(FrontendUrlResult(HttpsScheme + host, port, false))
  {
    var digits := NatToString(port);
    var tail := digits + rest;
    var s := HttpsScheme + host + ":" + digits + rest;
    UrlShape(HttpsScheme, host, digits, rest);
    MatchAtStart(host, tail);
    DigitRunOf(digits, rest);
    NatToStringRoundTrip(port);
  }

  lemma UrlShape(scheme: string, host: string, digits: string, rest: string)
    ensures scheme + host + ":" + digits + rest == scheme + (host + [':'] + (digits + rest))
  {
  }

  /** A URL with the right scheme but no colon after it has no port and is
      rejected. */
  lemma PortlessRejected(rest: string)
    requires NoChar(rest, ':')
    ensures ResolveTunnelConfig(TunnelUrl(HttpsScheme + rest)).Err?
  {
    var s := HttpsScheme + rest;
    assert forall j :: 8 <= j < |s| ==> s[j] == rest[j - 8];
    forall k | 0 <= k <= |s| ensures MatchAt(s, k).None? {
      if StartsWith(s[k..], HttpsScheme) && k + 8 <= |s| {
        assert s[k + 5] == s[k..][5] == HttpsScheme[5] == ':';
        assert k == 0;
        assert s[8..] == rest;
      }
    }
    TunnelUrlRejected(s);
  }

  lemma NgrokExample()
    ensures ResolveTunnelConfig(TunnelUrl("https://foo.ngrok.io:4000")) ==
            Ok(FrontendUrlResult("https://foo.ngrok.io", 4000, false))
  {
    assert NatToString(4000) == "4000" by {
      assert NatToString(4) == "4";
      assert NatToString(40) == "40";
      assert NatToString(400) == "400";
    }
    TunnelUrlAccepted("foo.ngrok.io", 4000, "");
    NgrokSpelling();
  }

  lemma NgrokSpelling()
    ensures HttpsScheme + "foo.ngrok.io" + ":" + "4000" + "" == "https://foo.ngrok.io:4000"
    ensures HttpsScheme + "foo.ngrok.io" == "https://foo.ngrok.io"
  {
  }

  /** Plain HTTP is not accepted, whatever follows the scheme, as long as no
      further colon does. */
  lemma HttpRejected(rest: string)
    requires NoChar(rest, ':')
    ensures ResolveTunnelConfig(TunnelUrl("http://" + rest)).Err?
  {
    var s := "http://" + rest;
    assert forall j :: 7 <= j < |s| ==> s[j] == rest[j - 7];
    assert s[4] == ':';
    assert HttpsScheme[4] == 's';
    forall k | 0 <= k <= |s| ensures MatchAt(s, k).None? {
      assert StartsWith(s[k..], HttpsScheme) ==> s[k + 4] == s[k..][4] == 's';
    }
    TunnelUrlRejected(s);
  }

  // ---------------------------------------------------------------------
  //  Polling the tunnel provider
  // ---------------------------------------------------------------------

  /** What `getTunnelStatus()` reports. */
  datatype TunnelStatus =
    | Connected(url: string)
    | Failed(message: string)
    | NotReady(status: string)   // starting, not started, ...

  /** How the promise of `pollTunnelUrl` ends, if it ends within the given
      statuses. */
  datatype PollOutcome = Resolved(url: string) | Rejected(message: string) | StillPolling

  predicate Settles(t: TunnelStatus) {
    !t.NotReady?
  }

  function SettleWith(t: TunnelStatus): PollOutcome
    requires Settles(t)
  {
    match t
    case Connected(url) => Resolved(url)
    case Failed(message) => Rejected(message)
  }

  /** The outcome and the final `retries` count when the provider answers
      the successive polls with `statuses`. */
  function Poll(statuses: seq<TunnelStatus>): (PollOutcome, nat) {
    if |statuses| == 0 then (StillPolling, 0)
    else if Settles(statuses[0]) then (SettleWith(statuses[0]), 0)
    else
      var rest := Poll(statuses[1..]);
      (rest.0, rest.1 + 1)
  }

  /** The first settling status decides the outcome, and `retries` counts the
      statuses before it. */
  lemma {:induction false} PollFirstSettling(statuses: seq<TunnelStatus>, k: nat)
    requires k < |statuses| && Settles(statuses[k])
    requires forall j :: 0 <= j < k ==> !Settles(statuses[j])
    ensures Poll(statuses) == (SettleWith(statuses[k]), k)
    decreases k
  {
    if k > 0 {
      PollFirstSettling(statuses[1..], k - 1);
    }
  }

  /** Without a settling status the promise is still pending after all of
      them, having retried once per status. */
  lemma {:induction false} PollNeverSettling(statuses: seq<TunnelStatus>)
    requires forall j :: 0 <= j < |statuses| ==> !Settles(statuses[j])
    ensures Poll(statuses) == (StillPolling, |statuses|)
    decreases |statuses|
  {
    if |statuses| > 0 {
      PollNeverSettling(statuses[1..]);
    }
  }

  /** Once settled, later statuses are never looked at. */
  lemma {:induction false} PollIgnoresLater(statuses: seq<TunnelStatus>, later: seq<TunnelStatus>)
    requires Poll(statuses).0 != StillPolling
    ensures Poll(statuses + later) == Poll(statuses)
    decreases |statuses|
  {
    if !Settles(statuses[0]) {
      assert (statuses + later)[1..] == statuses[1..] + later;
      PollIgnoresLater(statuses[1..], later);
    }
  }

  /** `pollTunnelUrl(tunnelClient)`, with the provider's answers to successive
      `getTunnelStatus()` calls given as `statuses`; `polls` counts the calls. */
  method PollTunnelUrl(statuses: seq<TunnelStatus>) returns (outcome: PollOutcome, retries: nat, polls: nat)
    ensures (outcome, retries) == Poll(statuses)
    ensures polls == if outcome == StillPolling then |statuses| else retries + 1
  {
    retries := 0;
    polls := 0;
    outcome := StillPolling;
    while polls < |statuses| && outcome == StillPolling
      invariant polls <= |statuses|
      invariant outcome == StillPolling ==> retries == polls && Poll(statuses) == (Poll(statuses[polls..]).0, Poll(statuses[polls..]).1 + retries)
      invariant outcome != StillPolling ==> (outcome, retries) == Poll(statuses) && polls == retries + 1
    {
      var result := statuses[polls];
      polls := polls + 1;
      if result.Failed? {
        outcome := Rejected(result.message);
      } else if result.Connected? {
        outcome := Resolved(result.url);
      } else {
        retries := retries + 1;
        assert statuses[polls - 1..][1..] == statuses[polls..];
      }
    }
  }
}
