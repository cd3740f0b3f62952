/** Fetching discovery documents, with retries and a cache (src/oauth2/discovery.rs). */
module Discovery {
  import opened Prelude
  import opened Strings

  datatype Discovery = Discovery(
    issuer: string,
    authorizationEndpoint: string,
    tokenEndpoint: string,
    jwksUri: string,
    grantTypes: seq<string>,
    responseTypes: seq<string>)

  datatype TimError = UpstreamTimeout(msg: string) | BadGateway(msg: string) | OtherError(msg: string)

  predicate Blank(s: string) {
    Trim(s) == ""
  }

  predicate Https(s: string) {
    "https://" <= s
  }

  datatype Refusal = BlankField | NotHttps | NoCodeGrant | NoCodeResponse

  function Refused(d: Discovery, allowHttp: bool): Option<Refusal> {
    if Blank(d.issuer) || Blank(d.authorizationEndpoint) || Blank(d.tokenEndpoint) || Blank(d.jwksUri) then
      Some(BlankField)
    else if !allowHttp && !(Https(d.authorizationEndpoint) && Https(d.tokenEndpoint) && Https(d.jwksUri)) then
      Some(NotHttps)
    else if d.grantTypes != [] && "authorization_code" !in d.grantTypes then Some(NoCodeGrant)
    else if d.responseTypes != [] && "code" !in d.responseTypes then Some(NoCodeResponse)
    else None
  }

  function MessageOf(why: Refusal): string {
    match why
    case BlankField => "discovery: required field is empty"
    case NotHttps => "discovery: endpoint is not https://"
    case NoCodeGrant => "discovery: provider does not advertise `authorization_code` grant"
    case NoCodeResponse => "discovery: provider does not advertise `code` response type"
  }

  function ValidateWith(d: Discovery, allowHttp: bool): Result<(), TimError> {
    match Refused(d, allowHttp)
    case None => Ok(())
    case Some(why) => Err(BadGateway(MessageOf(why)))
  }

  predicate ValidFor(d: Discovery, allowHttp: bool) {
    ValidateWith(d, allowHttp).Ok?
  }

  /** A document is valid for both flags, for the permissive one only because of
      a plain-HTTP endpoint, or for neither. */
  lemma FlagOnlyGatesHttp(d: Discovery)
    ensures ValidFor(d, false) <==>
            ValidFor(d, true) && Https(d.authorizationEndpoint) && Https(d.tokenEndpoint) && Https(d.jwksUri)
  {
  }

  lemma HttpsMeans(s: string)
    ensures Https(s) <==> |s| >= 8 && s[..8] == "https://"
  {
  }

  /** Some endpoint that the browser or TIM goes to is not TLS. */
  predicate PlainEndpoint(d: Discovery) {
    !Https(d.authorizationEndpoint) || !Https(d.tokenEndpoint) || !Https(d.jwksUri)
  }

  /** Each refusal, in the order in which it is noticed; a document that none applies
      to is accepted. */
  lemma RefusalsOfValidate(d: Discovery, allowHttp: bool)
    ensures var r := Refused(d, allowHttp);
            var blank := Trim(d.issuer) == "" || Trim(d.authorizationEndpoint) == "" || Trim(d.tokenEndpoint) == ""
                         || Trim(d.jwksUri) == "";
            var plain := !allowHttp && PlainEndpoint(d);
            var noGrant := d.grantTypes != [] && forall g :: g in d.grantTypes ==> g != "authorization_code";
            var noType := d.responseTypes != [] && forall t :: t in d.responseTypes ==> t != "code";
            && (r == None <==> !blank && !plain && !noGrant && !noType)
            && (r == Some(BlankField) <==> blank)
            && (r == Some(NotHttps) <==> !blank && plain)
            && (r == Some(NoCodeGrant) <==> !blank && !plain && noGrant)
            && (r == Some(NoCodeResponse) <==> !blank && !plain && !noGrant && noType)
    ensures ValidateWith(d, allowHttp) == Ok(()) <==> Refused(d, allowHttp) == None
  {
  }

  // ------------------------------------------------------------ what is retried

  predicate OccursAt(s: string, part: string, i: nat) {
    i + |part| <= |s| && s[i..i + |part|] == part
  }

  predicate Contains(s: string, part: string) {
    exists i :: 0 <= i <= |s| && OccursAt(s, part, i)
  }

  predicate Retryable(e: TimError) {
    e.UpstreamTimeout? || (e.BadGateway? && !Contains(e.msg, "returned 4"))
  }

  const RETURNED: string := "discovery returned "

  lemma OccurrenceChar(s: string, part: string, i: nat, k: nat)
    requires OccursAt(s, part, i) && k < |part|
    ensures s[i + k] == part[k]
  {
    assert s[i..i + |part|][k] == s[i + k];
  }

  /** In a status message the marker can only stand at the status code. */
  lemma MarkerOnlyAtStatus(code: string, phrase: string, i: nat)
    requires |code| == 3 && forall k :: 0 <= k < 3 ==> '0' <= code[k] <= '9'
    requires !Contains(phrase, "returned 4")
    requires OccursAt(RETURNED + code + " " + phrase, "returned 4", i)
    ensures i == 10 && code[0] == '4'
  {
    var msg := RETURNED + code + " " + phrase;
    var part := "returned 4";
    OccurrenceChar(msg, part, i, 0);
    OccurrenceChar(msg, part, i, 1);
    OccurrenceChar(msg, part, i, 9);
    if i < 19 {
      assert msg[i] == RETURNED[i];
      assert i < 18 ==> msg[i + 1] == RETURNED[i + 1];
    } else if i >= 23 {
      assert phrase[i - 23..i - 23 + 10] == msg[i..i + 10];
      assert OccursAt(phrase, part, i - 23);
    }
  }

  /** Classification reads the status back out of the message: an answer is
      retried unless its status code starts with 4. */
  lemma StatusIsRetriedUnless4xx(code: string, phrase: string)
    requires |code| == 3 && forall k :: 0 <= k < 3 ==> '0' <= code[k] <= '9'
    requires !Contains(phrase, "returned 4")
    ensures Retryable(BadGateway(RETURNED + code + " " + phrase)) <==> code[0] != '4'
  {
    var msg := RETURNED + code + " " + phrase;
    if code[0] == '4' {
      assert msg[10..20] == "returned 4";
      assert OccursAt(msg, "returned 4", 10);
    } else if Contains(msg, "returned 4") {
      var i :| 0 <= i <= |msg| && OccursAt(msg, "returned 4", i);
      MarkerOnlyAtStatus(code, phrase, i);
    }
  }

  /** Whether a part occurs is decided after a head that no occurrence can touch. */
  lemma HeadDoesNotCount(head: string, rest: string, part: string)
    requires part != "" && forall i :: 0 <= i < |head| ==> !OccursAt(head + rest, part, i)
    ensures Contains(head + rest, part) <==> Contains(rest, part)
  {
    var s := head + rest;
    forall i | 0 <= i <= |rest|
      ensures OccursAt(s, part, |head| + i) <==> OccursAt(rest, part, i)
    {
      if i + |part| <= |rest| {
        assert s[|head| + i..|head| + i + |part|] == rest[i..i + |part|];
      }
    }
    if Contains(s, part) {
      var i :| 0 <= i <= |s| && OccursAt(s, part, i);
      assert OccursAt(rest, part, i - |head|);
    }
    if Contains(rest, part) {
      var i :| 0 <= i <= |rest| && OccursAt(rest, part, i);
      assert OccursAt(s, part, |head| + i);
    }
  }

  const FETCH: string := "discovery fetch: "
  const PARSE: string := "discovery parse: "

  /** A connection error and a document that does not parse are retried, unless the
      reason given happens to contain the marker; a timeout always is; nothing else. */
  lemma FailuresAreRetried(reason: string)
    ensures Retryable(BadGateway("discovery fetch: " + reason)) <==> !Contains(reason, "returned 4")
    ensures Retryable(BadGateway("discovery parse: " + reason)) <==> !Contains(reason, "returned 4")
    ensures Retryable(UpstreamTimeout(reason)) && !Retryable(OtherError(reason))
  {
    HeadCannotTouch(FETCH, reason);
    HeadCannotTouch(PARSE, reason);
    HeadDoesNotCount(FETCH, reason, "returned 4");
    HeadDoesNotCount(PARSE, reason, "returned 4");
  }

  lemma HeadCannotTouch(head: string, reason: string)
    requires head == FETCH || head == PARSE
    ensures forall i :: 0 <= i < |head| ==> !OccursAt(head + reason, "returned 4", i)
  {
    forall i | 0 <= i < |head|
      ensures !OccursAt(head + reason, "returned 4", i)
    {
      if OccursAt(head + reason, "returned 4", i) {
        OccurrenceChar(head + reason, "returned 4", i, 0);
        OccurrenceChar(head + reason, "returned 4", i, 1);
      }
    }
  }

  // ------------------------------------------------------------------- backoff

  const FIRST_DELAY: nat := 500
  const MAX_DELAY: nat := 4_000

  function Pow2(n: nat): nat {
    if n == 0 then 1 else 2 * Pow2(n - 1)
  }

  /** min(500 * 2^i, 4000) milliseconds before retry i + 1. */
  function Delay(i: nat): nat {
    if FIRST_DELAY * Pow2(i) <= MAX_DELAY then FIRST_DELAY * Pow2(i) else MAX_DELAY
  }

  function TotalDelay(retries: nat): nat {
    if retries == 0 then 0 else TotalDelay(retries - 1) + Delay(retries - 1)
  }

  lemma DelayDoubles(i: nat)
    ensures Delay(0) == 500
    ensures Delay(i + 1) == if 2 * Delay(i) <= 4_000 then 2 * Delay(i) else 4_000
  {
  }

  /** Half a second, one, two, four, and four from then on. */
  lemma {:induction false} DelaysSumUp(retries: nat)
    ensures TotalDelay(0) == 0 && TotalDelay(1) == 500 && TotalDelay(2) == 1_500 && TotalDelay(3) == 3_500
    ensures retries >= 3 ==> TotalDelay(retries) == 3_500 + 4_000 * (retries - 3)
  {
    assert Pow2(0) == 1 && Pow2(1) == 2 && Pow2(2) == 4;
    if retries > 3 {
      DelaysSumUp(retries - 1);
      assert Delay(retries - 1) == 4_000 by { Pow2AtLeast8(retries - 1); }
    }
  }

  lemma {:induction false} Pow2AtLeast8(n: nat)
    requires n >= 3
    ensures Pow2(n) >= 8
  {
    if n == 3 {
      assert Pow2(0) == 1 && Pow2(1) == 2 && Pow2(2) == 4;
    } else {
      Pow2AtLeast8(n - 1);
    }
  }

  type Outcome = Result<Discovery, TimError>

  /** Fetch `i` is reached: every earlier one failed and could be retried. */
  predicate Reached(script: seq<Outcome>, i: nat)
    requires i <= |script|
  {
    forall k :: 0 <= k < i ==> script[k].Err? && Retryable(script[k].error)
  }

  /** Fetch `i` is the last: it succeeded, cannot be retried, or no retry is left. */
  predicate Stops(script: seq<Outcome>, maxRetries: nat, i: nat)
    requires i < |script|
  {
    script[i].Ok? || i == maxRetries || !Retryable(script[i].error)
  }

  // --------------------------------------------------------------------- cache

  /** An entry and, as history, the flag its inserter passed. */
  datatype Entry = Entry(doc: Discovery, insertedWith: bool)

  /** What a call that missed answers on its last reply. */
  function Settled(reply: Outcome, allowHttp: bool): (answer: Outcome)
    ensures answer.Ok? <==> reply.Ok? && ValidFor(reply.value, allowHttp)
    ensures answer.Ok? ==> answer == reply
  {
    if reply.Ok? && !ValidFor(reply.value, allowHttp) then Err(ValidateWith(reply.value, allowHttp).error) else reply
  }

  function Cached(entries: map<string, Entry>, url: string, allowHttp: bool, answer: Outcome): map<string, Entry> {
    if answer.Ok? then entries[url := Entry(answer.value, allowHttp)] else entries
  }

  /** What a call answers and leaves cached, when `reply` is the last reply it gets. */
  function Fetched(entries: map<string, Entry>, url: string, allowHttp: bool, reply: Outcome)
    : (Outcome, map<string, Entry>)
  {
    if url in entries then (Ok(entries[url].doc), entries)
    else
      var answer := Settled(reply, allowHttp);
      (answer, Cached(entries, url, allowHttp, answer))
  }

  /** Every entry is valid for the flag that `flagOf` gives its URL. */
  ghost predicate FlagsFit(entries: map<string, Entry>, flagOf: string -> bool) {
    forall u :: u in entries ==> entries[u].insertedWith == flagOf(u) && ValidFor(entries[u].doc, flagOf(u))
  }

  lemma FetchedKeepsFlags(entries: map<string, Entry>, url: string, flagOf: string -> bool, reply: Outcome)
    requires FlagsFit(entries, flagOf)
    ensures var (r, after) := Fetched(entries, url, flagOf(url), reply);
            FlagsFit(after, flagOf) && (r.Ok? ==> ValidFor(r.value, flagOf(url)))
  {
    if url !in entries && reply.Ok? && ValidFor(reply.value, flagOf(url)) {
      InsertKeepsFlags(entries, url, flagOf, reply.value);
    }
  }

  lemma InsertKeepsFlags(entries: map<string, Entry>, url: string, flagOf: string -> bool, doc: Discovery)
    requires FlagsFit(entries, flagOf) && ValidFor(doc, flagOf(url))
    ensures FlagsFit(entries[url := Entry(doc, flagOf(url))], flagOf)
  {
  }

  class DiscoveryCache {
    var entries: map<string, Entry>
    const maxRetries: nat

    ghost predicate Valid()
      reads this
    {
      forall url :: url in entries ==> ValidFor(entries[url].doc, entries[url].insertedWith)
    }

    constructor (maxRetries: nat)
      ensures Valid() && entries == map[] && this.maxRetries == maxRetries
    {
      this.maxRetries := maxRetries;
      entries := map[];
    }

    /** Time-to-live and capacity may drop any entry at any time. */
    method Evict(url: string)
      requires Valid()
      modifies this
      ensures Valid() && entries == old(entries) - {url}
    {
      entries := entries - {url};
    }

    /** `script` is what fetch 0, 1, ... of this call would answer. */
    method FetchWith(url: string, allowHttp: bool, script: seq<Outcome>)
      returns (r: Outcome, fetches: nat, sleptMs: nat)
      requires Valid() && |script| == maxRetries + 1
      modifies this
      ensures Valid()
      ensures fetches <= maxRetries + 1
      ensures url in old(entries) <==> fetches == 0
      ensures fetches == 0 ==> sleptMs == 0
      ensures fetches > 0 ==>
                sleptMs == TotalDelay(fetches - 1) && Reached(script, fetches - 1)
                  && Stops(script, maxRetries, fetches - 1)
      ensures (r, entries) == Fetched(old(entries), url, allowHttp, script[if fetches == 0 then 0 else fetches - 1])
    {
      fetches, sleptMs := 0, 0;
      if url in entries {
        r := Ok(entries[url].doc);
        return;
      }
      var delayMs := FIRST_DELAY;
      var attempt := 0;
      while attempt <= maxRetries
        invariant attempt <= maxRetries && fetches == attempt
        invariant entries == old(entries)
        invariant Reached(script, attempt)
        invariant delayMs == Delay(attempt) && sleptMs == TotalDelay(attempt)
      {
        r := script[attempt];
        fetches := fetches + 1;
        if r.Ok? {
          var checked := ValidateWith(r.value, allowHttp);
          if checked.Err? {
            r := Err(checked.error);
            return;
          }
          entries := entries[url := Entry(r.value, allowHttp)];
          return;
        } else if attempt == maxRetries {
          return;
        } else if Retryable(r.error) {
          DelayDoubles(attempt);
          sleptMs := sleptMs + delayMs;
          delayMs := if delayMs * 2 <= MAX_DELAY then delayMs * 2 else MAX_DELAY;
          attempt := attempt + 1;
        } else {
          return;
        }
      }
      // The trailing "retries exhausted" error is never reached.
      assert false;
    }

    /** Whoever asks with a flag that depends on the URL alone gets a document
        valid for that flag, cached or not. */
    method FetchForFlagOfUrl(url: string, flagOf: string -> bool, script: seq<Outcome>) returns (r: Outcome)
      requires Valid() && |script| == maxRetries + 1
      requires FlagsFit(entries, flagOf)
      modifies this
      ensures Valid() && FlagsFit(entries, flagOf)
      ensures r.Ok? ==> ValidFor(r.value, flagOf(url))
    {
      ghost var before := entries;
      var fetches, sleptMs;
      r, fetches, sleptMs := FetchWith(url, flagOf(url), script);
      FetchedKeepsFlags(before, url, flagOf, script[if fetches == 0 then 0 else fetches - 1]);
    }
  }

  /** The cache key omits the flag: a strict caller who comes after a permissive
      one is given the plain-HTTP document, whatever the provider says by then. */
  method PermissiveThenStrict(cache: DiscoveryCache, url: string, doc: Discovery, script: seq<Outcome>,
                              later: seq<Outcome>)
    returns (permissive: Outcome, strict: Outcome)
    requires cache.Valid() && url !in cache.entries
    requires |script| == |later| == cache.maxRetries + 1 && script[0] == Ok(doc)
    requires ValidFor(doc, true) && !ValidFor(doc, false)
    modifies cache
    ensures permissive == strict == Ok(doc)
  {
    var fetches, sleptMs;
    permissive, fetches, sleptMs := cache.FetchWith(url, true, script);
    strict, fetches, sleptMs := cache.FetchWith(url, false, later);
  }

  // ------------------------------------------------------- who gets what, exactly
  //
  // Calls overlap: each looks up, and if it misses its reply comes some time later.

  datatype Ask = Ask(url: string, allowHttp: bool)

  /** `asks` are the calls in the order of their lookups, `open` those that missed
      and wait for their last reply, `answers` what the others got. */
  datatype Calls = Calls(entries: map<string, Entry>, asks: seq<Ask>, open: set<nat>, answers: map<nat, Outcome>)

  datatype Moment = LookUp(ask: Ask) | Reply(call: nat, reply: Outcome) | Drop(url: string)

  function Next(s: Calls, m: Moment): Calls {
    match m
    case LookUp(ask) =>
      var t := s.(asks := s.asks + [ask]);
      if ask.url in s.entries then t.(answers := s.answers[|s.asks| := Ok(s.entries[ask.url].doc)])
      else t.(open := s.open + {|s.asks|})
    case Reply(call, reply) => if call in s.open && call < |s.asks| then Replied(s, call, reply) else s
    case Drop(url) => s.(entries := s.entries - {url})
  }

  function Replied(s: Calls, call: nat, reply: Outcome): Calls
    requires call < |s.asks|
  {
    var ask := s.asks[call];
    var answer := Settled(reply, ask.allowHttp);
    s.(entries := Cached(s.entries, ask.url, ask.allowHttp, answer), open := s.open - {call},
       answers := s.answers[call := answer])
  }

  function After(moments: seq<Moment>): Calls {
    if moments == [] then Calls(map[], [], {}, map[]) else Next(After(moments[..|moments| - 1]), moments[|moments| - 1])
  }

  /** A call whose reply comes at once is the cache's own operation. */
  lemma CallAtOnceIsFetched(s: Calls, ask: Ask, reply: Outcome)
    requires |s.asks| !in s.open
    ensures var t := Next(Next(s, LookUp(ask)), Reply(|s.asks|, reply));
            var (answer, entries) := Fetched(s.entries, ask.url, ask.allowHttp, reply);
            && t.entries == entries && t.answers == s.answers[|s.asks| := answer]
            && t.asks == s.asks + [ask] && t.open == s.open
  {
    assert ask.url !in s.entries ==> s.open + {|s.asks|} - {|s.asks|} == s.open;
  }

  /** Every document answered so far is valid for the caller who asked. */
  predicate ServesAll(asks: seq<Ask>, answers: map<nat, Outcome>) {
    forall k :: k in answers ==> k < |asks| && (answers[k].Ok? ==> ValidFor(answers[k].value, asks[k].allowHttp))
  }

  /** Once a URL was asked for with the permissive flag, it always is. */
  predicate NeverStrictAfterPermissive(asks: seq<Ask>) {
    forall i, k :: 0 <= i < k < |asks| && asks[i].url == asks[k].url && asks[i].allowHttp ==> asks[k].allowHttp
  }

  /** Every entry is valid for the flag of an earlier call for its URL. */
  ghost predicate EntriesFrom(entries: map<string, Entry>, asks: seq<Ask>) {
    forall u :: u in entries
      ==> ValidFor(entries[u].doc, entries[u].insertedWith) && Ask(u, entries[u].insertedWith) in asks
  }

  lemma InsertKeepsFrom(entries: map<string, Entry>, asks: seq<Ask>, ask: Ask, doc: Discovery)
    requires EntriesFrom(entries, asks) && ask in asks && ValidFor(doc, ask.allowHttp)
    ensures EntriesFrom(entries[ask.url := Entry(doc, ask.allowHttp)], asks)
  {
  }

  lemma HitServes(entries: map<string, Entry>, asks: seq<Ask>, ask: Ask)
    requires EntriesFrom(entries, asks) && ask.url in entries && NeverStrictAfterPermissive(asks + [ask])
    ensures ValidFor(entries[ask.url].doc, ask.allowHttp)
  {
    var e := entries[ask.url];
    FlagOnlyGatesHttp(e.doc);
    var i :| 0 <= i < |asks| && asks[i] == Ask(ask.url, e.insertedWith);
    assert (asks + [ask])[i] == asks[i] && (asks + [ask])[|asks|] == ask;
  }

  lemma AnswerServes(asks: seq<Ask>, answers: map<nat, Outcome>, call: nat, answer: Outcome)
    requires ServesAll(asks, answers) && call < |asks|
    requires answer.Ok? ==> ValidFor(answer.value, asks[call].allowHttp)
    ensures ServesAll(asks, answers[call := answer])
  {
  }

  lemma LookUpServes(s: Calls, ask: Ask)
    requires EntriesFrom(s.entries, s.asks) && ServesAll(s.asks, s.answers)
             && NeverStrictAfterPermissive(s.asks + [ask])
    ensures EntriesFrom(Next(s, LookUp(ask)).entries, s.asks + [ask])
    ensures ServesAll(s.asks + [ask], Next(s, LookUp(ask)).answers)
  {
    assert ServesAll(s.asks + [ask], s.answers);
    if ask.url in s.entries {
      HitServes(s.entries, s.asks, ask);
      AnswerServes(s.asks + [ask], s.answers, |s.asks|, Ok(s.entries[ask.url].doc));
    }
  }

  lemma ReplyServes(s: Calls, call: nat, reply: Outcome)
    requires EntriesFrom(s.entries, s.asks) && ServesAll(s.asks, s.answers) && call < |s.asks|
    ensures EntriesFrom(Replied(s, call, reply).entries, s.asks) && ServesAll(s.asks, Replied(s, call, reply).answers)
  {
    var ask := s.asks[call];
    var answer := Settled(reply, ask.allowHttp);
    AnswerServes(s.asks, s.answers, call, answer);
    if answer.Ok? {
      InsertKeepsFrom(s.entries, s.asks, ask, answer.value);
    }
  }

  lemma {:induction false} OrderedAsksAreServed(moments: seq<Moment>)
    requires NeverStrictAfterPermissive(After(moments).asks)
    ensures EntriesFrom(After(moments).entries, After(moments).asks)
            && ServesAll(After(moments).asks, After(moments).answers)
  {
    if moments != [] {
      var before, m := moments[..|moments| - 1], moments[|moments| - 1];
      var s := After(before);
      AsksGrow(s, m);
      OrderedAsksAreServed(before);
      match m
      case LookUp(ask) => LookUpServes(s, ask);
      case Reply(call, reply) => if call in s.open && call < |s.asks| { ReplyServes(s, call, reply); }
      case Drop(_) =>
    }
  }

  lemma AsksGrow(s: Calls, m: Moment)
    requires NeverStrictAfterPermissive(Next(s, m).asks)
    ensures NeverStrictAfterPermissive(s.asks)
  {
    forall i, k | 0 <= i < k < |s.asks| && s.asks[i].url == s.asks[k].url && s.asks[i].allowHttp
      ensures s.asks[k].allowHttp
    {
      assert Next(s, m).asks[i] == s.asks[i] && Next(s, m).asks[k] == s.asks[k];
    }
  }

  /** Acceptable but for its plain-HTTP endpoints. */
  predicate IsPlain(d: Discovery) {
    ValidFor(d, true) && !ValidFor(d, false)
  }

  lemma APlainDocument() returns (d: Discovery)
    ensures IsPlain(d)
  {
    var url := "http://idp";
    d := Discovery(url, url, url, url, [], []);
    TrimResult(url);
    assert !IsSpace(url[0]) && url[0] in url;
    assert "https://"[4] != url[4];
  }

  /** The calls one after the other, each answered `d` if it gets to ask. */
  function SameReply(asks: seq<Ask>, d: Discovery): seq<Moment> {
    if asks == [] then []
    else SameReply(asks[..|asks| - 1], d) + [LookUp(asks[|asks| - 1]), Reply(|asks| - 1, Ok(d))]
  }

  lemma AfterTwo(moments: seq<Moment>, m: Moment, n: Moment)
    ensures After(moments + [m, n]) == Next(Next(After(moments), m), n)
  {
    assert (moments + [m, n])[..|moments| + 1] == moments + [m];
    assert (moments + [m])[..|moments|] == moments;
  }

  /** After those calls the cache holds nothing but `d`, under every URL asked for
      permissively, and so the strict ones among the later calls got it too. */
  ghost predicate FilledWith(s: Calls, asks: seq<Ask>, d: Discovery) {
    && s.asks == asks && s.open == {}
    && (forall u :: u in s.entries ==> s.entries[u].doc == d)
    && (forall i :: 0 <= i < |asks| && asks[i].allowHttp ==> asks[i].url in s.entries)
    && (forall i, k ::
          0 <= i < k < |asks| && asks[i] == Ask(asks[k].url, true) ==> k in s.answers && s.answers[k] == Ok(d))
  }

  /** A call that finds `d` or is answered it. */
  lemma FetchFills(entries: map<string, Entry>, ask: Ask, d: Discovery)
    requires IsPlain(d) && forall u :: u in entries ==> entries[u].doc == d
    ensures var (answer, after) := Fetched(entries, ask.url, ask.allowHttp, Ok(d));
            && (forall u :: u in after ==> after[u].doc == d)
            && entries.Keys <= after.Keys && (ask.allowHttp ==> ask.url in after)
            && (ask.url in entries ==> answer == Ok(d))
  {
  }

  lemma FilledStep(s: Calls, asks: seq<Ask>, ask: Ask, d: Discovery)
    requires IsPlain(d) && FilledWith(s, asks, d)
    ensures FilledWith(Next(Next(s, LookUp(ask)), Reply(|asks|, Ok(d))), asks + [ask], d)
  {
    CallAtOnceIsFetched(s, ask, Ok(d));
    FetchFills(s.entries, ask, d);
    var (answer, entries) := Fetched(s.entries, ask.url, ask.allowHttp, Ok(d));
    StaysFilled(s, asks, ask, d, answer, entries);
  }

  lemma StaysFilled(s: Calls, asks: seq<Ask>, ask: Ask, d: Discovery, answer: Outcome, entries: map<string, Entry>)
    requires FilledWith(s, asks, d)
    requires forall u :: u in entries ==> entries[u].doc == d
    requires s.entries.Keys <= entries.Keys && (ask.allowHttp ==> ask.url in entries)
    requires ask.url in s.entries ==> answer == Ok(d)
    ensures FilledWith(Calls(entries, asks + [ask], {}, s.answers[|asks| := answer]), asks + [ask], d)
  {
  }

  lemma {:induction false} PlainFillsCache(asks: seq<Ask>, d: Discovery)
    requires IsPlain(d)
    ensures FilledWith(After(SameReply(asks, d)), asks, d)
  {
    if asks != [] {
      var n := |asks| - 1;
      PlainFillsCache(asks[..n], d);
      assert asks == asks[..n] + [asks[n]];
      FilledStep(After(SameReply(asks[..n], d)), asks[..n], asks[n], d);
      AfterTwo(SameReply(asks[..n], d), LookUp(asks[n]), Reply(n, Ok(d)));
    }
  }

  /** Calls, however they overlap, get only documents that their callers accept,
      whatever the provider replies and whatever is evicted, exactly when no URL is
      looked up strictly after it was looked up permissively. */
  lemma CallersServedIff(asks: seq<Ask>)
    ensures (forall moments :: After(moments).asks == asks ==> ServesAll(asks, After(moments).answers))
            <==> NeverStrictAfterPermissive(asks)
  {
    if NeverStrictAfterPermissive(asks) {
      forall moments | After(moments).asks == asks
        ensures ServesAll(asks, After(moments).answers)
      {
        OrderedAsksAreServed(moments);
      }
    } else {
      var i, k :| 0 <= i < k < |asks| && asks[i].url == asks[k].url && asks[i].allowHttp && !asks[k].allowHttp;
      var d := APlainDocument();
      PlainFillsCache(asks, d);
      assert asks[i] == Ask(asks[k].url, true);
      assert !ServesAll(asks, After(SameReply(asks, d)).answers);
    }
  }
}
