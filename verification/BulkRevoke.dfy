/** Accounting of a batch of revocations (src/jwt/service.rs, src/router/mod.rs).
    Each token has its turn at an instant of its own. */
module BulkRevoke {
  import opened Prelude
  import opened Claims
  import opened Signer
  import opened TokenTables
  import opened Counting

  datatype ItemStatus = Newly | Already | Failed(why: ServiceError)

  datatype BulkItem = BulkItem(token: Token, status: ItemStatus)

  datatype BulkResponse = BulkResponse(newly: nat, already: nat, failed: nat, results: seq<BulkItem>)

  /** What verification makes of one token: the revocation to record, or why not. */
  type Check = Result<Revocation, ServiceError>

  function Checks(signer: JwtSigner, tokens: seq<Token>, clock: nat -> Instant): (checks: seq<Check>)
    ensures |checks| == |tokens|
    ensures forall i :: 0 <= i < |tokens| ==> checks[i] == CheckRevoke(signer, tokens[i], clock(i))
  {
    seq(|tokens|, i requires 0 <= i < |tokens| => CheckRevoke(signer, tokens[i], clock(i)))
  }

  /** The distinct jtis that the verifiable tokens of a batch name. */
  function JtisOf(checks: seq<Check>): set<Uuid> {
    set c | c in checks && c.Ok? :: c.value.jti
  }

  function StatusAgainst(check: Check, denied: set<Uuid>): ItemStatus {
    match check
    case Err(e) => Failed(e)
    case Ok(r) => if r.jti in denied then Already else Newly
  }

  /** `taken(i)` is what others had denylisted, before the batch or since, when
      token `i` has its turn. */
  type Taken = nat -> set<Uuid>

  /** The item of token `i`: its jti counts as taken if someone else denylisted it
      or an earlier token of the batch names it. */
  function ItemAt(tokens: seq<Token>, checks: seq<Check>, taken: Taken, i: nat): BulkItem
    requires |checks| == |tokens| && i < |tokens|
  {
    BulkItem(tokens[i], StatusAgainst(checks[i], taken(i) + JtisOf(checks[..i])))
  }

  /** The items, one for each token in order. */
  function Items(tokens: seq<Token>, checks: seq<Check>, taken: Taken): (items: seq<BulkItem>)
    requires |checks| == |tokens|
    ensures |items| == |tokens|
    ensures forall i :: 0 <= i < |tokens| ==> items[i] == ItemAt(tokens, checks, taken, i)
  {
    seq(|tokens|, i requires 0 <= i < |tokens| => ItemAt(tokens, checks, taken, i))
  }

  /** The jtis that the batch, and nobody before it, denylisted. */
  function Won(checks: seq<Check>, taken: Taken): set<Uuid> {
    if checks == [] then {}
    else
      var n := |checks| - 1;
      Won(checks[..n], taken) + NewBy(checks[n], taken(n) + JtisOf(checks[..n]))
  }

  function NewBy(check: Check, denied: set<Uuid>): set<Uuid> {
    if check.Ok? && check.value.jti !in denied then {check.value.jti} else {}
  }

  /** What the answer to a batch must be. */
  ghost predicate Accounts(tokens: seq<Token>, checks: seq<Check>, taken: Taken, r: BulkResponse) {
    && |checks| == |tokens|
    && r.results == Items(tokens, checks, taken)
    && r.newly == |Won(checks, taken)|
    && r.failed == CountIf(checks, IsErr)
    && r.newly + r.already + r.failed == |tokens|
  }

  /** Nobody else denylists anything during the first `n` turns. */
  predicate Undisturbed(taken: Taken, n: nat, denied: set<Uuid>) {
    forall i :: 0 <= i < n ==> taken(i) == denied
  }

  /** Left alone, a batch wins the distinct verifiable jtis not denylisted before it. */
  lemma {:induction false} WonAlone(checks: seq<Check>, taken: Taken, denied: set<Uuid>)
    requires Undisturbed(taken, |checks|, denied)
    ensures Won(checks, taken) == JtisOf(checks) - denied
  {
    if checks != [] {
      var n := |checks| - 1;
      assert checks == checks[..n] + [checks[n]];
      WonAlone(checks[..n], taken, denied);
      JtisOfStep(checks[..n], checks[n]);
    }
  }

  const IsErr := (c: Check) => c.Err?

  lemma JtisOfStep(checks: seq<Check>, check: Check)
    ensures JtisOf(checks + [check]) == JtisOf(checks) + (if check.Ok? then {check.value.jti} else {})
  {
    var all := checks + [check];
    forall c | c in checks && c.Ok?
      ensures c.value.jti in JtisOf(all)
    {
      assert c in all;
    }
    assert check in all;
  }

  // ------------------------------------------------------ order is irrelevant

  lemma JtisOfPermuted(a: seq<Check>, b: seq<Check>)
    requires multiset(a) == multiset(b)
    ensures JtisOf(a) == JtisOf(b)
  {
    assert forall c :: c in a <==> c in multiset(a);
    assert forall c :: c in b <==> c in multiset(b);
  }

  /** No key retires while a batch of `n` runs. */
  predicate SameKeysThroughout(signer: JwtSigner, clock: nat -> Instant, n: nat, now: Instant) {
    forall i :: 0 <= i < n ==> ActivePrevious(signer, clock(i)) == ActivePrevious(signer, now)
  }

  /** Time enters a check through the retiring key only. */
  lemma ChecksAtOnce(signer: JwtSigner, tokens: seq<Token>, clock: nat -> Instant, now: Instant)
    requires SameKeysThroughout(signer, clock, |tokens|, now)
    ensures Checks(signer, tokens, clock) == MapSeq(tokens, t => CheckRevoke(signer, t, now))
  {
    forall i | 0 <= i < |tokens|
      ensures Checks(signer, tokens, clock)[i] == CheckRevoke(signer, tokens[i], now)
    {
      assert ActivePrevious(signer, clock(i)) == ActivePrevious(signer, now);
    }
  }

  lemma ChecksPermuted(signer: JwtSigner, a: seq<Token>, b: seq<Token>, ca: nat -> Instant, cb: nat -> Instant,
                       now: Instant)
    requires multiset(a) == multiset(b)
    requires SameKeysThroughout(signer, ca, |a|, now) && SameKeysThroughout(signer, cb, |b|, now)
    ensures multiset(Checks(signer, a, ca)) == multiset(Checks(signer, b, cb))
  {
    ChecksAtOnce(signer, a, ca, now);
    ChecksAtOnce(signer, b, cb, now);
    MapSeqPermuted(a, b, t => CheckRevoke(signer, t, now));
  }

  /** Permuting a batch changes neither the three counts nor the set of jtis it
      leaves denylisted, whenever its tokens have their turns, as long as nobody
      interferes and the retiring key does not go in the middle. */
  lemma PermutedBatchCountsTheSame(signer: JwtSigner, a: seq<Token>, b: seq<Token>, ca: nat -> Instant,
                                   cb: nat -> Instant, now: Instant, ta: Taken, tb: Taken, denied: set<Uuid>,
                                   ra: BulkResponse, rb: BulkResponse)
    requires multiset(a) == multiset(b)
    requires SameKeysThroughout(signer, ca, |a|, now) && SameKeysThroughout(signer, cb, |b|, now)
    requires Undisturbed(ta, |a|, denied) && Undisturbed(tb, |b|, denied)
    requires Accounts(a, Checks(signer, a, ca), ta, ra)
    requires Accounts(b, Checks(signer, b, cb), tb, rb)
    ensures ra.newly == rb.newly && ra.already == rb.already && ra.failed == rb.failed
    ensures denied + JtisOf(Checks(signer, a, ca)) == denied + JtisOf(Checks(signer, b, cb))
  {
    var x, y := Checks(signer, a, ca), Checks(signer, b, cb);
    ChecksPermuted(signer, a, b, ca, cb, now);
    SameCounts(x, y);
    CountsAlone(a, x, ta, denied, ra);
    CountsAlone(b, y, tb, denied, rb);
    assert |a| == |multiset(a)| == |multiset(b)| == |b|;
  }

  lemma SameCounts(x: seq<Check>, y: seq<Check>)
    requires multiset(x) == multiset(y)
    ensures JtisOf(x) == JtisOf(y) && CountIf(x, IsErr) == CountIf(y, IsErr)
  {
    CountIfPermuted(x, y, IsErr);
    JtisOfPermuted(x, y);
  }

  lemma CountsAlone(tokens: seq<Token>, checks: seq<Check>, taken: Taken, denied: set<Uuid>, r: BulkResponse)
    requires Accounts(tokens, checks, taken, r) && Undisturbed(taken, |tokens|, denied)
    ensures r.newly == |JtisOf(checks) - denied| && r.failed == CountIf(checks, IsErr)
    ensures r.already == |tokens| - r.newly - r.failed
  {
    WonAlone(checks, taken, denied);
  }

  // ------------------------------------------------- exactly when it is irrelevant

  /** The two orders name the same jtis and have as many failures. */
  ghost predicate SameOutcome(signer: JwtSigner, clock: nat -> Instant, a: seq<Token>, b: seq<Token>) {
    && JtisOf(Checks(signer, a, clock)) == JtisOf(Checks(signer, b, clock))
    && CountIf(Checks(signer, a, clock), IsErr) == CountIf(Checks(signer, b, clock), IsErr)
  }

  /** No permutation of a batch of `n` makes a difference. */
  ghost predicate OrderIrrelevant(signer: JwtSigner, clock: nat -> Instant, n: nat) {
    forall a, b :: |a| == n && multiset(a) == multiset(b) ==> SameOutcome(signer, clock, a, b)
  }

  /** The two keys are one, so that it does not matter which of them a token uses. */
  predicate OneKey(signer: JwtSigner) {
    signer.previous.Some? && signer.previous.value.key == signer.current.key
  }

  lemma OneKeyChecksAtOnce(signer: JwtSigner, tokens: seq<Token>, clock: nat -> Instant, now: Instant)
    requires OneKey(signer)
    ensures Checks(signer, tokens, clock) == MapSeq(tokens, t => CheckRevoke(signer, t, now))
  {
    forall i | 0 <= i < |tokens|
      ensures Checks(signer, tokens, clock)[i] == CheckRevoke(signer, tokens[i], now)
    {
      OneKeyVerifiesAtOnce(signer, tokens[i], clock(i), now);
    }
  }

  lemma OneKeyVerifiesAtOnce(signer: JwtSigner, token: Token, t: Instant, now: Instant)
    requires OneKey(signer)
    ensures VerifyRaw(signer, token, Permissive(), t) == VerifyRaw(signer, token, Permissive(), now)
  {
  }

  lemma SteadyOrderIrrelevant(signer: JwtSigner, clock: nat -> Instant, a: seq<Token>, b: seq<Token>)
    requires multiset(a) == multiset(b)
    requires SameKeysThroughout(signer, clock, |a|, clock(0)) || OneKey(signer)
    ensures SameOutcome(signer, clock, a, b)
  {
    assert |a| == |multiset(a)| == |multiset(b)| == |b|;
    if OneKey(signer) {
      OneKeyChecksAtOnce(signer, a, clock, clock(0));
      OneKeyChecksAtOnce(signer, b, clock, clock(0));
      MapSeqPermuted(a, b, t => CheckRevoke(signer, t, clock(0)));
    } else {
      ChecksPermuted(signer, a, b, clock, clock, clock(0));
    }
    SameCounts(Checks(signer, a, clock), Checks(signer, b, clock));
  }

  /** A token of the retiring key, for any claims. */
  function OfRetiring(signer: JwtSigner, c: StandardClaims): Token
    requires signer.previous.Some?
  {
    Signed(Some(signer.previous.value.kid), None, signer.previous.value.key, Encode(c))
  }

  lemma RetiringKeyCheck(signer: JwtSigner, c: StandardClaims, j: Uuid, now: Instant)
    requires Signer.Valid(signer) && signer.previous.Some? && !OneKey(signer)
    requires c.extra.Keys !! TYPED && ExpInRange(c.exp) && ParseUuid(c.jti) == Some(j)
    ensures var check := CheckRevoke(signer, OfRetiring(signer, c), now);
            if ActivePrevious(signer, now).Some? then check == Ok(Revocation(j, AtSecond(c.exp))) else check.Err?
  {
    RoundTrip(c);
  }

  /** A batch with one readable token, at turn `i`. */
  function OnlyAt(t: Token, n: nat, i: nat): (tokens: seq<Token>)
    requires i < n
    ensures |tokens| == n && tokens[i] == t && forall k :: 0 <= k < n && k != i ==> tokens[k] == Unreadable
  {
    seq(n, _ => Unreadable)[i := t]
  }

  lemma OnlyAtPermutes(t: Token, n: nat, i: nat, k: nat)
    requires i < n && k < n
    ensures multiset(OnlyAt(t, n, i)) == multiset(OnlyAt(t, n, k))
  {
    var u: seq<Token> := seq(n, _ => Unreadable);
    assert multiset(u[i := t]) == multiset(u)[Unreadable := multiset(u)[Unreadable] - 1] + multiset{t};
    assert multiset(u[k := t]) == multiset(u)[Unreadable := multiset(u)[Unreadable] - 1] + multiset{t};
  }

  lemma OnlyAtNames(signer: JwtSigner, t: Token, n: nat, i: nat, clock: nat -> Instant)
    requires i < n
    ensures var check := CheckRevoke(signer, t, clock(i));
            JtisOf(Checks(signer, OnlyAt(t, n, i), clock)) == if check.Ok? then {check.value.jti} else {}
  {
    var checks := Checks(signer, OnlyAt(t, n, i), clock);
    assert checks[i] == CheckRevoke(signer, t, clock(i));
    assert forall k :: 0 <= k < n && k != i ==> checks[k].Err?;
  }

  /** A token of the retiring key among unreadable ones is only revoked in time. */
  lemma RetirementMidBatchBreaksIt(signer: JwtSigner, clock: nat -> Instant, n: nat, i: nat, k: nat, c: StandardClaims,
                                   j: Uuid)
    requires Signer.Valid(signer) && signer.previous.Some? && !OneKey(signer)
    requires c.extra.Keys !! TYPED && ExpInRange(c.exp) && ParseUuid(c.jti) == Some(j)
    requires i < n && k < n && ActivePrevious(signer, clock(i)).Some? && ActivePrevious(signer, clock(k)).None?
    ensures var t := OfRetiring(signer, c);
            && multiset(OnlyAt(t, n, i)) == multiset(OnlyAt(t, n, k))
            && JtisOf(Checks(signer, OnlyAt(t, n, i), clock)) == {j}
            && JtisOf(Checks(signer, OnlyAt(t, n, k), clock)) == {}
  {
    var t := OfRetiring(signer, c);
    OnlyAtPermutes(t, n, i, k);
    OnlyAtNames(signer, t, n, i, clock);
    OnlyAtNames(signer, t, n, k, clock);
    RetiringKeyCheck(signer, c, j, clock(i));
    RetiringKeyCheck(signer, c, j, clock(k));
  }

  /** The order of a batch never matters exactly when its turns all see the same
      advertised keys, or the two keys are one. */
  lemma OrderIrrelevantIff(signer: JwtSigner, clock: nat -> Instant, n: nat)
    requires Signer.Valid(signer)
    ensures OrderIrrelevant(signer, clock, n) <==> SameKeysThroughout(signer, clock, n, clock(0)) || OneKey(signer)
  {
    if SameKeysThroughout(signer, clock, n, clock(0)) || OneKey(signer) {
      forall a, b | |a| == n && multiset(a) == multiset(b)
        ensures SameOutcome(signer, clock, a, b)
      {
        SteadyOrderIrrelevant(signer, clock, a, b);
      }
    } else {
      var m :| 0 <= m < n && ActivePrevious(signer, clock(m)) != ActivePrevious(signer, clock(0));
      var active := ActivePrevious(signer, clock(m)).Some?;
      var i, k := if active then m else 0, if active then 0 else m;
      var c := StandardClaims(Plain(""), None, None, 0, 0, UuidText(0, 0), map[]);
      RetirementMidBatchBreaksIt(signer, clock, n, i, k, c, 0);
      var t := OfRetiring(signer, c);
      assert !SameOutcome(signer, clock, OnlyAt(t, n, i), OnlyAt(t, n, k)) by {
        assert 0 in JtisOf(Checks(signer, OnlyAt(t, n, i), clock));
      }
    }
  }

  // -------------------------------------------------------------- HTTP status

  function BulkHttpStatus(r: BulkResponse): int {
    if r.failed > 0 && r.newly == 0 && r.already == 0 then 400
    else if r.failed > 0 || (r.newly > 0 && r.already > 0) then 207
    else if r.newly == 0 && r.already > 0 then 409
    else 200
  }

  const IsNewly := (it: BulkItem) => it.status.Newly?
  const IsAlready := (it: BulkItem) => it.status.Already?
  const IsFailed := (it: BulkItem) => it.status.Failed?

  lemma CountItem(results: seq<BulkItem>, item: BulkItem, p: BulkItem -> bool)
    ensures CountIf(results + [item], p) == CountIf(results, p) + (if p(item) then 1 else 0)
  {
    assert (results + [item])[..|results|] == results;
  }

  lemma CountCheck(checks: seq<Check>, check: Check, p: Check -> bool)
    ensures CountIf(checks + [check], p) == CountIf(checks, p) + (if p(check) then 1 else 0)
  {
    assert (checks + [check])[..|checks|] == checks;
  }

  lemma EarlierItem(tokens: seq<Token>, checks: seq<Check>, taken: Taken, n: nat, i: nat)
    requires |checks| == |tokens| && i < n <= |tokens|
    ensures ItemAt(tokens, checks, taken, i) == ItemAt(tokens[..n], checks[..n], taken, i)
  {
    assert checks[..n][..i] == checks[..i];
  }

  lemma ItemsStep(tokens: seq<Token>, checks: seq<Check>, taken: Taken)
    requires |checks| == |tokens| && tokens != []
    ensures var n := |tokens| - 1;
            Items(tokens, checks, taken) == Items(tokens[..n], checks[..n], taken) + [ItemAt(tokens, checks, taken, n)]
  {
    var n := |tokens| - 1;
    forall i | 0 <= i < n
      ensures Items(tokens, checks, taken)[i] == Items(tokens[..n], checks[..n], taken)[i]
    {
      EarlierItem(tokens, checks, taken, n, i);
    }
  }

  lemma {:induction false} WonIsNamed(checks: seq<Check>, taken: Taken)
    ensures Won(checks, taken) <= JtisOf(checks)
  {
    if checks != [] {
      var n := |checks| - 1;
      assert checks == checks[..n] + [checks[n]];
      WonIsNamed(checks[..n], taken);
      JtisOfStep(checks[..n], checks[n]);
    }
  }

  lemma {:induction false} WonStep(before: seq<Check>, last: Check, taken: Taken)
    ensures Won(before + [last], taken) == Won(before, taken) + NewBy(last, taken(|before|) + JtisOf(before))
    ensures |Won(before + [last], taken)|
            == |Won(before, taken)| + (if StatusAgainst(last, taken(|before|) + JtisOf(before)).Newly? then 1 else 0)
  {
    assert (before + [last])[..|before|] == before;
    WonIsNamed(before, taken);
  }

  /** The counts in the answer are the counts of its items. */
  lemma {:induction false} CountsOfItems(tokens: seq<Token>, checks: seq<Check>, taken: Taken)
    requires |checks| == |tokens|
    ensures CountIf(Items(tokens, checks, taken), IsNewly) == |Won(checks, taken)|
    ensures CountIf(Items(tokens, checks, taken), IsFailed) == CountIf(checks, IsErr)
    ensures CountIf(Items(tokens, checks, taken), IsNewly) + CountIf(Items(tokens, checks, taken), IsAlready)
            + CountIf(Items(tokens, checks, taken), IsFailed) == |tokens|
  {
    if tokens != [] {
      var n := |tokens| - 1;
      var before, last := checks[..n], checks[n];
      assert checks == before + [last];
      CountsOfItems(tokens[..n], before, taken);
      ItemsStep(tokens, checks, taken);
      var items, item := Items(tokens[..n], before, taken), ItemAt(tokens, checks, taken, n);
      CountItem(items, item, IsNewly);
      CountItem(items, item, IsAlready);
      CountItem(items, item, IsFailed);
      CountCheck(before, last, IsErr);
      WonStep(before, last, taken);
    }
  }

  lemma StatusFromCounts(r: BulkResponse)
    requires r.results != []
    requires r.newly == CountIf(r.results, IsNewly) && r.already == CountIf(r.results, IsAlready)
    requires r.failed == CountIf(r.results, IsFailed) && r.newly + r.already + r.failed == |r.results|
    ensures BulkHttpStatus(r) == 200 <==> forall i :: 0 <= i < |r.results| ==> r.results[i].status.Newly?
    ensures BulkHttpStatus(r) == 400 <==> forall i :: 0 <= i < |r.results| ==> r.results[i].status.Failed?
    ensures BulkHttpStatus(r) == 409 <==> forall i :: 0 <= i < |r.results| ==> r.results[i].status.Already?
  {
    CountIfIsAll(r.results, IsNewly);
    CountIfIsAll(r.results, IsAlready);
    CountIfIsAll(r.results, IsFailed);
  }

  /** Each status but 207 says that all tokens went one way. */
  lemma BulkStatusMeaning(tokens: seq<Token>, checks: seq<Check>, taken: Taken, r: BulkResponse)
    requires tokens != [] && Accounts(tokens, checks, taken, r)
    ensures BulkHttpStatus(r) == 200 <==> forall i :: 0 <= i < |tokens| ==> r.results[i].status.Newly?
    ensures BulkHttpStatus(r) == 400 <==> forall i :: 0 <= i < |tokens| ==> r.results[i].status.Failed?
    ensures BulkHttpStatus(r) == 409 <==> forall i :: 0 <= i < |tokens| ==> r.results[i].status.Already?
    ensures BulkHttpStatus(r) in {200, 207, 400, 409}
  {
    CountsOfItems(tokens, checks, taken);
    StatusFromCounts(r);
  }

  // ----------------------------------------------- the loop, one token at a time

  lemma BulkStep(tokens: seq<Token>, checks: seq<Check>, taken: Taken, i: nat, item: BulkItem)
    requires |checks| == |tokens| && i < |tokens|
    requires item == ItemAt(tokens, checks, taken, i)
    ensures Items(tokens[..i + 1], checks[..i + 1], taken) == Items(tokens[..i], checks[..i], taken) + [item]
  {
    assert tokens[..i + 1][..i] == tokens[..i] && checks[..i + 1][..i] == checks[..i];
    ItemsStep(tokens[..i + 1], checks[..i + 1], taken);
  }

  /** The answer so far, after the first `i` tokens. */
  ghost predicate CountedUpTo(tokens: seq<Token>, checks: seq<Check>, i: nat, taken: Taken, r: BulkResponse) {
    && |checks| == |tokens| && i <= |tokens|
    && r.results == Items(tokens[..i], checks[..i], taken)
    && r.newly == CountIf(r.results, IsNewly)
    && r.already == CountIf(r.results, IsAlready)
    && r.failed == CountIf(r.results, IsFailed)
  }

  /** The answer with one more item. */
  function Plus(r: BulkResponse, item: BulkItem): BulkResponse {
    BulkResponse(
      r.newly + (if item.status.Newly? then 1 else 0),
      r.already + (if item.status.Already? then 1 else 0),
      r.failed + (if item.status.Failed? then 1 else 0),
      r.results + [item])
  }

  lemma CountStep(tokens: seq<Token>, checks: seq<Check>, i: nat, taken: Taken, r: BulkResponse, item: BulkItem)
    requires CountedUpTo(tokens, checks, i, taken, r) && i < |tokens|
    requires item == ItemAt(tokens, checks, taken, i)
    ensures CountedUpTo(tokens, checks, i + 1, taken, Plus(r, item))
  {
    BulkStep(tokens, checks, taken, i, item);
    CountItem(r.results, item, IsNewly);
    CountItem(r.results, item, IsAlready);
    CountItem(r.results, item, IsFailed);
  }

  lemma CountDone(tokens: seq<Token>, checks: seq<Check>, taken: Taken, r: BulkResponse)
    requires CountedUpTo(tokens, checks, |tokens|, taken, r)
    ensures Accounts(tokens, checks, taken, r)
  {
    assert tokens[..|tokens|] == tokens && checks[..|tokens|] == checks;
    CountsOfItems(tokens, checks, taken);
  }

  /** What other callers insert before each turn: `others(i)` since turn `i - 1`. */
  type Others = nat -> map<Uuid, DenyRow>

  /** Everything others had denylisted after the first `n` of their insertions. */
  function TakenUpTo(denied: set<Uuid>, others: Others, n: nat): set<Uuid> {
    if n == 0 then denied else TakenUpTo(denied, others, n - 1) + others(n - 1).Keys
  }

  function TakenAt(denied: set<Uuid>, others: Others): Taken {
    i => TakenUpTo(denied, others, i + 1)
  }

  lemma {:induction false} TakenAlone(denied: set<Uuid>, others: Others, n: nat)
    requires forall i :: 0 <= i < n ==> others(i) == map[]
    ensures TakenUpTo(denied, others, n) == denied
  {
    if n > 0 { TakenAlone(denied, others, n - 1); }
  }

  /** INSERT ... ON CONFLICT DO NOTHING of many rows. */
  function Joined(deny: map<Uuid, DenyRow>, rows: map<Uuid, DenyRow>): map<Uuid, DenyRow> {
    rows + deny
  }

  /** INSERT ... ON CONFLICT DO NOTHING of what one check asks for. */
  function Recorded(check: Check, reason: Option<string>, now: Instant, deny: map<Uuid, DenyRow>): map<Uuid, DenyRow> {
    if check.Ok? && check.value.jti !in deny
    then deny[check.value.jti := DenyRow(now, check.value.expiresAt, reason)] else deny
  }

  /** A batch with the instants of its turns, its reason, and what others do meanwhile. */
  datatype Batch = Batch(checks: seq<Check>, reason: Option<string>, clock: nat -> Instant, others: Others)

  /** The row a check of the batch asked for. */
  predicate Records(b: Batch, j: Uuid, row: DenyRow) {
    exists i :: 0 <= i < |b.checks| && RecordsAt(b, i, j, row)
  }

  predicate RecordsAt(b: Batch, i: nat, j: Uuid, row: DenyRow)
    requires i < |b.checks|
  {
    b.checks[i] == Ok(Revocation(j, row.expiresAt)) && row == DenyRow(b.clock(i), row.expiresAt, b.reason)
  }

  /** A row that was there before, or that another caller inserted. */
  predicate Foreign(b: Batch, before: map<Uuid, DenyRow>, n: nat, j: Uuid, row: DenyRow) {
    (j in before && row == before[j]) || exists k :: 0 <= k < n && InsertedBy(b.others(k), j, row)
  }

  predicate InsertedBy(rows: map<Uuid, DenyRow>, j: Uuid, row: DenyRow) {
    j in rows && row == rows[j]
  }

  /** Rows that were there stay; those of `won` are the batch's, the others are not. */
  ghost predicate RowsOk(b: Batch, n: nat, before: map<Uuid, DenyRow>, won: set<Uuid>, deny: map<Uuid, DenyRow>) {
    && (forall j :: j in before ==> j in deny && deny[j] == before[j])
    && (forall j :: j in deny ==> if j in won then Records(b, j, deny[j]) else Foreign(b, before, n, j, deny[j]))
  }

  /** The denylist after `i` turns of the batch and `n` of the others. */
  ghost predicate RecordedUpTo(b: Batch, i: nat, n: nat, before: map<Uuid, DenyRow>, deny: map<Uuid, DenyRow>) {
    && i <= |b.checks|
    && deny.Keys == TakenUpTo(before.Keys, b.others, n) + JtisOf(b.checks[..i])
    && RowsOk(b, n, before, Won(b.checks[..i], TakenAt(before.Keys, b.others)), deny)
  }

  lemma JoinKeepsRows(b: Batch, n: nat, before: map<Uuid, DenyRow>, won: set<Uuid>, deny: map<Uuid, DenyRow>)
    requires RowsOk(b, n, before, won, deny) && won <= deny.Keys
    ensures RowsOk(b, n + 1, before, won, Joined(deny, b.others(n)))
  {
    var deny' := Joined(deny, b.others(n));
    forall j | j in deny'
      ensures if j in won then Records(b, j, deny'[j]) else Foreign(b, before, n + 1, j, deny'[j])
    {
      if j !in deny {
        assert InsertedBy(b.others(n), j, deny'[j]);
      }
    }
  }

  lemma OthersTurn(b: Batch, i: nat, before: map<Uuid, DenyRow>, deny: map<Uuid, DenyRow>)
    requires RecordedUpTo(b, i, i, before, deny)
    ensures RecordedUpTo(b, i, i + 1, before, Joined(deny, b.others(i)))
  {
    WonIsNamed(b.checks[..i], TakenAt(before.Keys, b.others));
    JoinKeepsRows(b, i, before, Won(b.checks[..i], TakenAt(before.Keys, b.others)), deny);
  }

  lemma RecordKeepsRows(b: Batch, n: nat, before: map<Uuid, DenyRow>, won: set<Uuid>, deny: map<Uuid, DenyRow>, i: nat)
    requires RowsOk(b, n, before, won, deny) && i < |b.checks|
    ensures RowsOk(b, n, before, won + NewBy(b.checks[i], deny.Keys), Recorded(b.checks[i], b.reason, b.clock(i), deny))
  {
    var deny' := Recorded(b.checks[i], b.reason, b.clock(i), deny);
    forall j | j in deny'
      ensures if j in won + NewBy(b.checks[i], deny.Keys) then Records(b, j, deny'[j])
              else Foreign(b, before, n, j, deny'[j])
    {
      if j !in deny {
        assert RecordsAt(b, i, j, deny'[j]);
      }
    }
  }

  lemma TurnWins(checks: seq<Check>, i: nat, taken: Taken, denied: set<Uuid>)
    requires i < |checks| && denied == taken(i) + JtisOf(checks[..i])
    ensures Won(checks[..i + 1], taken) == Won(checks[..i], taken) + NewBy(checks[i], denied)
    ensures taken(i) + JtisOf(checks[..i + 1]) == denied + NewBy(checks[i], denied)
  {
    assert checks[..i + 1] == checks[..i] + [checks[i]];
    JtisOfStep(checks[..i], checks[i]);
    WonStep(checks[..i], checks[i], taken);
  }

  lemma RecordedKeys(check: Check, reason: Option<string>, now: Instant, deny: map<Uuid, DenyRow>)
    ensures Recorded(check, reason, now, deny).Keys == deny.Keys + NewBy(check, deny.Keys)
  {
  }

  lemma OwnTurn(b: Batch, i: nat, before: map<Uuid, DenyRow>, deny: map<Uuid, DenyRow>)
    requires RecordedUpTo(b, i, i + 1, before, deny) && i < |b.checks|
    ensures RecordedUpTo(b, i + 1, i + 1, before, Recorded(b.checks[i], b.reason, b.clock(i), deny))
  {
    var taken := TakenAt(before.Keys, b.others);
    assert taken(i) == TakenUpTo(before.Keys, b.others, i + 1);
    TurnWins(b.checks, i, taken, deny.Keys);
    RecordedKeys(b.checks[i], b.reason, b.clock(i), deny);
    var won := Won(b.checks[..i], taken);
    RecordKeepsRows(b, i + 1, before, won, deny, i);
  }

  /** One turn of the loop, on the denylist that the others left. */
  lemma TurnDone(tokens: seq<Token>, b: Batch, i: nat, before: map<Uuid, DenyRow>, deny: map<Uuid, DenyRow>,
                 r: BulkResponse, item: BulkItem)
    requires RecordedUpTo(b, i, i + 1, before, deny) && i < |tokens| == |b.checks|
    requires CountedUpTo(tokens, b.checks, i, TakenAt(before.Keys, b.others), r)
    requires item == BulkItem(tokens[i], StatusAgainst(b.checks[i], deny.Keys))
    ensures RecordedUpTo(b, i + 1, i + 1, before, Recorded(b.checks[i], b.reason, b.clock(i), deny))
    ensures CountedUpTo(tokens, b.checks, i + 1, TakenAt(before.Keys, b.others), Plus(r, item))
  {
    OwnTurn(b, i, before, deny);
    CountStep(tokens, b.checks, i, TakenAt(before.Keys, b.others), r, item);
  }

  /** A batch that is left alone: newly is the number of distinct verifiable jtis not
      denylisted before, and the denylist grows by exactly those. */
  lemma LeftAloneGrowsByNewly(tokens: seq<Token>, b: Batch, before: map<Uuid, DenyRow>, deny: map<Uuid, DenyRow>,
                              r: BulkResponse)
    requires Accounts(tokens, b.checks, TakenAt(before.Keys, b.others), r)
    requires RecordedUpTo(b, |b.checks|, |b.checks|, before, deny)
    requires forall i :: 0 <= i < |b.checks| ==> b.others(i) == map[]
    ensures r.newly == |JtisOf(b.checks) - before.Keys|
    ensures deny.Keys == before.Keys + JtisOf(b.checks) && |deny| == |before| + r.newly
    ensures forall j :: j in deny && j !in before ==> Records(b, j, deny[j])
  {
    NothingTaken(b, before.Keys);
    var taken := TakenAt(before.Keys, b.others);
    WonAlone(b.checks, taken, before.Keys);
    assert b.checks[..|b.checks|] == b.checks;
    OwnRowsOnly(b, before, JtisOf(b.checks), deny);
  }

  lemma NothingTaken(b: Batch, denied: set<Uuid>)
    requires forall i :: 0 <= i < |b.checks| ==> b.others(i) == map[]
    ensures Undisturbed(TakenAt(denied, b.others), |b.checks|, denied)
    ensures TakenUpTo(denied, b.others, |b.checks|) == denied
  {
    forall i | 0 <= i <= |b.checks| ensures TakenUpTo(denied, b.others, i) == denied {
      TakenAlone(denied, b.others, i);
    }
  }

  lemma OwnRowsOnly(b: Batch, before: map<Uuid, DenyRow>, named: set<Uuid>, deny: map<Uuid, DenyRow>)
    requires deny.Keys == before.Keys + named
    requires RowsOk(b, |b.checks|, before, named - before.Keys, deny)
    ensures |deny| == |before| + |named - before.Keys|
    ensures forall j :: j in deny && j !in before ==> Records(b, j, deny[j])
  {
    assert deny.Keys == before.Keys + (named - before.Keys);
    assert |deny.Keys| == |before.Keys| + |named - before.Keys|;
  }
}
