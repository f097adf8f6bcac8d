/** The request handlers of the short-link server with HTTP taken out: gShortPut (create a
    short link) and gShortGet (resolve one), as functions from a request, the configuration,
    the collection and the outcomes of the calls they make, to a response and the collection
    afterwards. */
module Shortener {
  import opened Wrappers
  import opened Decimal
  import opened Settings
  import opened Utils
  import opened Store

  // ---------------------------------------------------------------------------------------
  // Create path

  /** The decoded JSON body of a create request. */
  datatype PutRequest = PutRequest(url: string, token: string, password: string, maxHitCount: int)

  /** The JSON body of a successful create: the long url and the full short link. */
  datatype ShortLink = ShortLink(url: string, mapping: string)

  /** What the create handler writes back. */
  datatype PutResponse =
    | BadRequest              // 400, no body
    | Existing(link: ShortLink) // 200, a link already stored for the url
    | Created(link: ShortLink)  // 201, a newly stored link
    | InternalError           // 500, no body

  function PutStatus(r: PutResponse): int {
    match r
    case BadRequest => 400
    case Existing(_) => 200
    case Created(_) => 201
    case InternalError => 500
  }

  /** One round of the token loop: the random draws behind the candidate and how the
      FilterFromMapping round trip for it goes. */
  datatype Attempt = Attempt(draw: Draws, fault: Fault)

  /** Everything outside the handler that decides its course: the url syntax check, the
      reCAPTCHA service (secret, token, expected host), and each store round trip. The
      attempts are finite: they bound the loop the Go code runs without limit. */
  datatype PutEnv = PutEnv(
    isValidUrl: string -> bool,
    captcha: (string, string, string) -> bool,
    urlLookup: Fault,
    attempts: seq<Attempt>,
    insert: Fault)

  /** How a create ends: a response; a panic in the generator (negative length, or an empty
      charset with a positive length); or every candidate the attempts allow already taken,
      where the Go loop would keep going. */
  datatype PutOutcome = Replied(response: PutResponse) | Panic | Exhausted

  datatype PutResult = PutResult(outcome: PutOutcome, store: Store)

  /** The condition under which an existing link for the url is reused. The Go test is a
      disjunction, so a password-protected request with no hit limit is reused too. */
  predicate DedupApplies(a: PutRequest) {
    |a.password| == 0 || a.maxHitCount == 0
  }

  /** The candidate token a round produces. */
  function Candidate(g: Generator, a: Attempt): string
    requires GeneratorRuns(g)
  {
    GenerateString(g.length as nat, g.charset, a.draw)
  }

  /** The loop goes on exactly when the lookup of the candidate returns no error. */
  predicate Taken(s: Store, g: Generator, a: Attempt)
    requires GeneratorRuns(g)
  {
    FilterFromMapping(s, Candidate(g, a), a.fault).Ok?
  }

  /** The round, from k on, at which the loop leaves with a token. */
  function FirstFree(s: Store, g: Generator, attempts: seq<Attempt>, k: nat): (r: Option<nat>)
    requires GeneratorRuns(g)
    requires k <= |attempts|
    ensures r.Some? ==> k <= r.value < |attempts| && !Taken(s, g, attempts[r.value])
    ensures r.Some? ==> forall j :: k <= j < r.value ==> Taken(s, g, attempts[j])
    ensures r.None? ==> forall j :: k <= j < |attempts| ==> Taken(s, g, attempts[j])
    decreases |attempts| - k
  {
    if k == |attempts| then None
    else if !Taken(s, g, attempts[k]) then Some(k)
    else FirstFree(s, g, attempts, k + 1)
  }

  /** The generate-until-absent loop as the handler runs it, bounded by the attempts given. */
  method FindFreeToken(s: Store, g: Generator, attempts: seq<Attempt>) returns (r: Option<nat>)
    requires GeneratorRuns(g)
    ensures r == FirstFree(s, g, attempts, 0)
  {
    var i := 0;
    while i < |attempts|
      invariant i <= |attempts|
      invariant FirstFree(s, g, attempts, 0) == FirstFree(s, g, attempts, i)
    {
      var mapping := Candidate(g, attempts[i]);
      var lookup := FilterFromMapping(s, mapping, attempts[i].fault);
      if lookup.Err? {
        return Some(i);
      }
      i := i + 1;
    }
    return None;
  }

  /** gShortPut. */
  function Put(c: Config, body: Option<PutRequest>, env: PutEnv, s: Store): (r: PutResult)
    ensures body.None? || |body.value.url| == 0 || !env.isValidUrl(body.value.url) ==>
      r == PutResult(Replied(BadRequest), s)
    ensures r.store == s || (|r.store| == |s| + 1 && r.store[..|s|] == s)
    ensures r.store != s ==> r.outcome.Replied? && PutStatus(r.outcome.response) in {201, 500}
    ensures r.outcome.Replied? && PutStatus(r.outcome.response) == 201 ==> r.store != s
  {
    if body.None? || |body.value.url| == 0 then PutResult(Replied(BadRequest), s)
    else
      var a := body.value;
      if !env.isValidUrl(a.url) then PutResult(Replied(BadRequest), s)
      else if CaptchaEnabled(c) && !env.captcha(c.reCaptcha.secretKey, a.token, c.domain) then
        PutResult(Replied(BadRequest), s)
      else if DedupApplies(a) && FilterFromUrl(s, a.url, env.urlLookup).Ok? then
        var link := ShortLink(a.url, BuildMapping(c, FilterFromUrl(s, a.url, env.urlLookup).value));
        PutResult(Replied(Existing(link)), s)
      else if !GeneratorRuns(c.generator) then PutResult(Panic, s)
      else
        match FirstFree(s, c.generator, env.attempts, 0)
        case None => PutResult(Exhausted, s)
        case Some(k) =>
          var mapping := Candidate(c.generator, env.attempts[k]);
          var w := Insert(s, a.url, mapping, a.password, a.maxHitCount, env.insert);
          if w.failed then PutResult(Replied(InternalError), w.store)
          else PutResult(Replied(Created(ShortLink(a.url, BuildMapping(c, mapping)))), w.store)
  }

  /** The request passes the checks before the store is consulted. */
  predicate PassesChecks(c: Config, a: PutRequest, env: PutEnv) {
    |a.url| > 0 && env.isValidUrl(a.url)
    && (CaptchaEnabled(c) ==> env.captcha(c.reCaptcha.secretKey, a.token, c.domain))
  }

  /** Every candidate lookup of the request completes without a connection error. */
  predicate LookupsHealthy(env: PutEnv) {
    forall k :: 0 <= k < |env.attempts| ==> env.attempts[k].fault == Healthy
  }

  /** The captcha service is consulted only when both keys are configured: otherwise its
      verdict cannot change anything. */
  lemma PutCaptchaOnlyWhenEnabled(c: Config, body: Option<PutRequest>, env: PutEnv, s: Store,
                                  other: (string, string, string) -> bool)
    requires !CaptchaEnabled(c)
    ensures Put(c, body, env, s) == Put(c, body, env.(captcha := other), s)
  {
  }

  /** A rejected captcha is a 400 and nothing is written. */
  lemma PutCaptchaRejects(c: Config, a: PutRequest, env: PutEnv, s: Store)
    requires |a.url| > 0 && env.isValidUrl(a.url)
    requires CaptchaEnabled(c) && !env.captcha(c.reCaptcha.secretKey, a.token, c.domain)
    ensures Put(c, Some(a), env, s) == PutResult(Replied(BadRequest), s)
  {
  }

  /** Dedup: a request under the reuse condition whose url the store already holds gets a 200
      with the stored token's link, and nothing is written. */
  lemma PutDedup(c: Config, a: PutRequest, env: PutEnv, s: Store)
    requires PassesChecks(c, a, env)
    requires DedupApplies(a)
    requires FilterFromUrl(s, a.url, env.urlLookup).Ok?
    ensures var m := FilterFromUrl(s, a.url, env.urlLookup).value;
      && Put(c, Some(a), env, s) == PutResult(Replied(Existing(ShortLink(a.url, BuildMapping(c, m)))), s)
      && exists i :: 0 <= i < |s| && s[i].url == a.url && s[i].mapping == m
  {
  }

  /** The reuse does not look at the stored record's password: a public create for a url that
      only a password-protected record holds is answered with that protected link. */
  lemma PutDedupHandsOutProtectedLink(c: Config, a: PutRequest, env: PutEnv, s: Store, i: nat)
    requires PassesChecks(c, a, env) && DedupApplies(a) && env.urlLookup == Healthy
    requires i < |s| && s[i].url == a.url && |s[i].password| > 0
    requires forall j :: 0 <= j < |s| && j != i ==> s[j].url != a.url
    ensures Put(c, Some(a), env, s) ==
      PutResult(Replied(Existing(ShortLink(a.url, BuildMapping(c, s[i].mapping)))), s)
  {
    var found := FilterFromUrl(s, a.url, Healthy);
    assert found.Ok?;
    var j :| 0 <= j < |s| && s[j].url == a.url && s[j].mapping == found.value;
    assert j == i;
  }

  /** Outside the reuse condition (a password and a non-zero hit limit) the url lookup is
      skipped and a 200 is never the answer. */
  lemma PutNoDedup(c: Config, a: PutRequest, env: PutEnv, s: Store)
    requires !DedupApplies(a)
    ensures !(Put(c, Some(a), env, s).outcome.Replied? && Put(c, Some(a), env, s).outcome.response.Existing?)
    ensures forall f: Fault :: Put(c, Some(a), env.(urlLookup := f), s) == Put(c, Some(a), env, s)
  {
  }

  /** As written, the reuse applies to a password-protected request whenever it sets no hit
      limit, although such a request was meant to get a link of its own. */
  lemma PutDedupDespitePassword(c: Config, a: PutRequest, env: PutEnv, s: Store)
    requires PassesChecks(c, a, env)
    requires |a.password| > 0 && a.maxHitCount == 0
    requires env.urlLookup == Healthy && HasUrl(s, a.url)
    ensures Put(c, Some(a), env, s).outcome.Replied?
    ensures Put(c, Some(a), env, s).outcome.response.Existing?
  {
  }

  /** Whenever a create writes, the token it writes is the candidate of the round at which
      FilterFromMapping returned an error; when the lookups were healthy that error was a
      miss, so the token was absent from the collection. */
  lemma {:induction false} PutWritesFreeToken(c: Config, body: Option<PutRequest>, env: PutEnv, s: Store)
    requires |Put(c, body, env, s).store| > |s|
    ensures GeneratorRuns(c.generator)
    ensures var t := Put(c, body, env, s).store[|s|].mapping;
      exists k :: 0 <= k < |env.attempts|
        && t == Candidate(c.generator, env.attempts[k])
        && FilterFromMapping(s, t, env.attempts[k].fault).Err?
    ensures LookupsHealthy(env) ==> !HasMapping(s, Put(c, body, env, s).store[|s|].mapping)
  {
    var r := Put(c, body, env, s);
    var a := body.value;
    var k := FirstFree(s, c.generator, env.attempts, 0).value;
    var t := Candidate(c.generator, env.attempts[k]);
    assert r.store[|s|].mapping == t;
    assert !Taken(s, c.generator, env.attempts[k]);
  }

  /** The key invariant of the create path: with healthy lookups, a collection whose mappings
      are unique keeps them unique. */
  lemma {:induction false} PutKeepsUnique(c: Config, body: Option<PutRequest>, env: PutEnv, s: Store)
    requires LookupsHealthy(env)
    requires UniqueMappings(s)
    ensures UniqueMappings(Put(c, body, env, s).store)
  {
    var r := Put(c, body, env, s);
    if r.store != s {
      PutWritesFreeToken(c, body, env, s);
      var rec := r.store[|s|];
      assert r.store == s + [rec];
      assert Insert(s, rec.url, rec.mapping, rec.password, rec.maxHitCount, Healthy).store == r.store;
      InsertFreshKeepsUnique(s, rec.url, rec.mapping, rec.password, rec.maxHitCount, Healthy);
    }
  }

  /** A 201 carries the request's url and the short link of the written token; the token has
      the configured length and only charset characters, and the written document carries the
      request's url, password and hit limit. */
  lemma {:induction false} PutCreated(c: Config, a: PutRequest, env: PutEnv, s: Store)
    requires Put(c, Some(a), env, s).outcome.Replied?
    requires Put(c, Some(a), env, s).outcome.response.Created?
    ensures var r := Put(c, Some(a), env, s);
      && |r.store| == |s| + 1
      && r.store[|s|].url == a.url
      && r.store[|s|].password == a.password
      && r.store[|s|].maxHitCount == a.maxHitCount
      && r.outcome.response.link == ShortLink(a.url, BuildMapping(c, r.store[|s|].mapping))
      && |r.store[|s|].mapping| == c.generator.length
      && (forall i :: 0 <= i < |r.store[|s|].mapping| ==> r.store[|s|].mapping[i] in c.generator.charset)
      && env.insert == Healthy
  {
    var r := Put(c, Some(a), env, s);
    var k := FirstFree(s, c.generator, env.attempts, 0).value;
    var t := Candidate(c.generator, env.attempts[k]);
    assert r.store[|s|].mapping == t;
  }

  /** A failed insert is a 500 with no body. When the failure came before the write the
      collection is unchanged; when only the disconnect failed the document is already stored. */
  lemma PutInsertFails(c: Config, a: PutRequest, env: PutEnv, s: Store)
    requires Put(c, Some(a), env, s).outcome == Replied(InternalError)
    ensures env.insert != Healthy
    ensures env.insert == Unreachable ==> Put(c, Some(a), env, s).store == s
    ensures env.insert == DisconnectFails ==> |Put(c, Some(a), env, s).store| == |s| + 1
  {
  }

  /** The forward direction: once the checks pass, the reuse does not apply and the loop finds
      a free token, the insert alone decides between 500 and 201, and a 201 carries the request
      url and the short link of the round's candidate. */
  lemma PutInsertOutcome(c: Config, a: PutRequest, env: PutEnv, s: Store)
    requires PassesChecks(c, a, env)
    requires !(DedupApplies(a) && FilterFromUrl(s, a.url, env.urlLookup).Ok?)
    requires GeneratorRuns(c.generator) && FirstFree(s, c.generator, env.attempts, 0).Some?
    ensures env.insert != Healthy <==> Put(c, Some(a), env, s).outcome == Replied(InternalError)
    ensures env.insert == Healthy ==>
      var t := Candidate(c.generator, env.attempts[FirstFree(s, c.generator, env.attempts, 0).value]);
      Put(c, Some(a), env, s).outcome == Replied(Created(ShortLink(a.url, BuildMapping(c, t))))
  {
  }

  /** A series of creates, one after another, each on the collection the previous one left. */
  function PutAll(c: Config, bodies: seq<Option<PutRequest>>, envs: seq<PutEnv>, s: Store): Store
    requires |bodies| == |envs|
  {
    if |bodies| == 0 then s
    else PutAll(c, bodies[1..], envs[1..], Put(c, bodies[0], envs[0], s).store)
  }

  /** Sequential creates with healthy lookups never put two documents under one mapping. */
  lemma {:induction false} PutAllKeepsUnique(c: Config, bodies: seq<Option<PutRequest>>,
                                             envs: seq<PutEnv>, s: Store)
    requires |bodies| == |envs|
    requires forall i :: 0 <= i < |envs| ==> LookupsHealthy(envs[i])
    requires UniqueMappings(s)
    ensures UniqueMappings(PutAll(c, bodies, envs, s))
    decreases |bodies|
  {
    if |bodies| > 0 {
      PutKeepsUnique(c, bodies[0], envs[0], s);
      PutAllKeepsUnique(c, bodies[1..], envs[1..], Put(c, bodies[0], envs[0], s).store);
    }
  }

  /** Creating twice for a url the store did not hold, both times under the reuse condition:
      the second create answers 200 with the same short link the first one created. */
  lemma {:induction false} PutTwiceSameLink(c: Config, a1: PutRequest, a2: PutRequest,
                                            env1: PutEnv, env2: PutEnv, s: Store)
    requires a1.url == a2.url && !HasUrl(s, a1.url)
    requires PassesChecks(c, a2, env2) && DedupApplies(a2) && env2.urlLookup == Healthy
    requires Put(c, Some(a1), env1, s).outcome.Replied?
    requires Put(c, Some(a1), env1, s).outcome.response.Created?
    ensures var r1 := Put(c, Some(a1), env1, s);
      Put(c, Some(a2), env2, r1.store) == PutResult(Replied(Existing(r1.outcome.response.link)), r1.store)
  {
    var r1 := Put(c, Some(a1), env1, s);
    PutCreated(c, a1, env1, s);
    var t := r1.store;
    var found := FilterFromUrl(t, a2.url, Healthy);
    assert t[|s|].url == a2.url;
    assert found.Ok?;
    var j :| 0 <= j < |t| && t[j].url == a2.url && t[j].mapping == found.value;
    assert t[..|s|] == s;
    assert j == |s|;
    PutDedup(c, a2, env2, t);
  }

  /** Two creates in a row that both write get distinct tokens and distinct short links when
      the second one's lookups are healthy; with a password and a hit limit a create never
      reuses (PutNoDedup), so this is what two such requests for one url get. */
  lemma {:induction false} PutTwiceDistinct(c: Config, a1: PutRequest, a2: PutRequest,
                                                     env1: PutEnv, env2: PutEnv, s: Store)
    requires LookupsHealthy(env2)
    requires Put(c, Some(a1), env1, s).outcome.Replied?
    requires Put(c, Some(a1), env1, s).outcome.response.Created?
    requires var s1 := Put(c, Some(a1), env1, s).store;
      Put(c, Some(a2), env2, s1).outcome.Replied? && Put(c, Some(a2), env2, s1).outcome.response.Created?
    ensures var r1 := Put(c, Some(a1), env1, s);
      var r2 := Put(c, Some(a2), env2, r1.store);
      r1.store[|s|].mapping != r2.store[|r1.store|].mapping
      && r1.outcome.response.link.mapping != r2.outcome.response.link.mapping
  {
    var r1 := Put(c, Some(a1), env1, s);
    var r2 := Put(c, Some(a2), env2, r1.store);
    PutCreated(c, a1, env1, s);
    PutCreated(c, a2, env2, r1.store);
    PutWritesFreeToken(c, Some(a2), env2, r1.store);
    assert !HasMapping(r1.store, r2.store[|r1.store|].mapping);
    assert r1.store[|s|].mapping != r2.store[|r1.store|].mapping;
    BuildMappingInjective(c, r1.store[|s|].mapping, r2.store[|r1.store|].mapping);
  }

  /** As written, any error from FilterFromMapping ends the loop, so a lookup that fails to
      connect hands out a token that is already stored. */
  lemma PutFaultyLookupDuplicates()
    ensures var c := Config("example.org", "https", 443, ReCaptcha("", ""), Generator(1, "a"));
      var s := [Record("https://example.org/a", "a", "", 0)];
      var env := PutEnv(_ => true, (_, _, _) => true, Healthy, [Attempt(_ => 0, Unreachable)], Healthy);
      var r := Put(c, Some(PutRequest("https://example.org/b", "", "", 0)), env, s);
      UniqueMappings(s) && r.outcome.Replied? && r.outcome.response.Created? && !UniqueMappings(r.store)
  {
    var c := Config("example.org", "https", 443, ReCaptcha("", ""), Generator(1, "a"));
    var s := [Record("https://example.org/a", "a", "", 0)];
    var env := PutEnv(_ => true, (_, _, _) => true, Healthy, [Attempt(_ => 0, Unreachable)], Healthy);
    var r := Put(c, Some(PutRequest("https://example.org/b", "", "", 0)), env, s);
    assert Candidate(c.generator, env.attempts[0]) == "a";
    assert !HasUrl(s, "https://example.org/b");
    assert r.store[0].mapping == r.store[1].mapping;
  }

  // ---------------------------------------------------------------------------------------
  // Resolve path

  /** The request body of a resolve: none, a JSON document, or something that is not JSON. */
  datatype Body = NoBody | Decodes | Malformed

  /** What the unseen IsPasswordProtected lookup reports for a mapping: whether it is
      protected and the stored password. */
  datatype Protection = Protection(protected: bool, password: string)

  /** What the resolve handler writes back. */
  datatype GetResponse =
    | GetBadRequest                 // 400
    | PasswordPage(location: string) // 302 to the password form
    | Unauthorized                  // 401
    | AcceptedTarget(location: string) // 202 with the target in Location
    | FoundTarget(location: string)    // 302 to the target
    | FoundHome(location: string)      // 302 to the home page

  function GetStatus(r: GetResponse): int {
    match r
    case GetBadRequest => 400
    case PasswordPage(_) => 302
    case Unauthorized => 401
    case AcceptedTarget(_) => 202
    case FoundTarget(_) => 302
    case FoundHome(_) => 302
  }

  /** The response together with the mappings handed to hitCounter, in call order. */
  datatype GetResult = GetResult(response: GetResponse, hits: seq<string>)

  /** The home page address the handler redirects to; the port is always written out. */
  function HomeUrl(c: Config): string {
    c.protocol + "://" + c.domain + ":" + Itoa(c.port)
  }

  /** gShortGet: `key` is the Key header ("" when absent); `isProtected` stands for the
      IsPasswordProtected lookup, whose error the handler ignores; `fault` is how the
      FilterFromMapping round trip goes. The hitCounter call is recorded in `hits`; its error
      is only logged, so it has no input here. */
  function Get(c: Config, requestUri: string, body: Body, key: string,
               isProtected: string -> Protection, fault: Fault, s: Store): (r: GetResult)
    ensures |r.hits| <= 1
    ensures |r.hits| == 1 <==> r.response.AcceptedTarget? || r.response.FoundTarget?
    ensures |r.hits| == 1 ==> r.hits[0] == TrimLeftChar(requestUri)
    ensures r.response.AcceptedTarget? || r.response.FoundTarget? ==>
      exists i :: 0 <= i < |s| && s[i].mapping == TrimLeftChar(requestUri) && s[i].url == r.response.location
    ensures r.response.AcceptedTarget? || r.response.FoundTarget? ==>
      key == isProtected(TrimLeftChar(requestUri)).password
    ensures GetStatus(r.response) == 202 ==> isProtected(TrimLeftChar(requestUri)).protected
    ensures GetStatus(r.response) == 401 ==> key != isProtected(TrimLeftChar(requestUri)).password
  {
    var mapping := TrimLeftChar(requestUri);
    var prot := isProtected(mapping);
    if body == Malformed then GetResult(GetBadRequest, [])
    else if prot.protected && |key| == 0 then
      GetResult(PasswordPage(HomeUrl(c) + "/password/" + mapping), [])
    else if key != prot.password then GetResult(Unauthorized, [])
    else
      var target := FilterFromMapping(s, mapping, fault);
      if target.Err? then GetResult(FoundHome(HomeUrl(c)), [])
      else if prot.protected then GetResult(AcceptedTarget(target.value), [mapping])
      else GetResult(FoundTarget(target.value), [mapping])
  }

  /** A protected mapping asked for without a key is sent to the password form, whose address
      always carries the port; no hit is recorded. */
  lemma GetNeedsKey(c: Config, m: string, body: Body, isProtected: string -> Protection,
                    fault: Fault, s: Store)
    requires body != Malformed && isProtected(m).protected
    ensures Get(c, "/" + m, body, "", isProtected, fault, s) ==
      GetResult(PasswordPage(c.protocol + "://" + c.domain + ":" + Itoa(c.port) + "/password/" + m), [])
  {
    TrimLeftCharPath(m);
  }

  /** A key that is not the stored password is a 401 with no hit, unless the first rule
      (protected, no key) applies; on a public mapping this means any non-empty key. */
  lemma GetWrongKey(c: Config, uri: string, body: Body, key: string,
                    isProtected: string -> Protection, fault: Fault, s: Store)
    requires body != Malformed
    requires var p := isProtected(TrimLeftChar(uri)); key != p.password && !(p.protected && key == "")
    ensures Get(c, uri, body, key, isProtected, fault, s) == GetResult(Unauthorized, [])
  {
  }

  /** A granted request: the right key on a protected mapping is a 202 with the target, an
      empty key on a public mapping is a 302 to it; either way hitCounter is called once. */
  lemma GetGranted(c: Config, m: string, body: Body, key: string,
                   isProtected: string -> Protection, s: Store)
    requires body != Malformed && UniqueMappings(s)
    requires key == isProtected(m).password
    requires isProtected(m).protected ==> key != ""
    requires exists i :: 0 <= i < |s| && s[i].mapping == m
    ensures var i :| 0 <= i < |s| && s[i].mapping == m;
      Get(c, "/" + m, body, key, isProtected, Healthy, s) ==
        if isProtected(m).protected then GetResult(AcceptedTarget(s[i].url), [m])
        else GetResult(FoundTarget(s[i].url), [m])
  {
    TrimLeftCharPath(m);
    var i :| 0 <= i < |s| && s[i].mapping == m;
    FilterFromMappingUnique(s, i);
  }

  /** A mapping the store does not hold, past the key checks, redirects home with no hit. */
  lemma GetUnknownGoesHome(c: Config, m: string, body: Body, key: string,
                           isProtected: string -> Protection, fault: Fault, s: Store)
    requires body != Malformed
    requires key == isProtected(m).password
    requires isProtected(m).protected ==> key != ""
    requires !HasMapping(s, m) || fault != Healthy
    ensures Get(c, "/" + m, body, key, isProtected, fault, s) == GetResult(FoundHome(HomeUrl(c)), [])
  {
    TrimLeftCharPath(m);
  }

  /** The intended access rule: a public mapping is always granted, a protected one needs a
      key and then the right key. */
  datatype Decision = Granted | NeedCredential | Denied

  function GuardDecision(protected: bool, recordPassword: string, credential: string): Decision {
    if !protected then Granted
    else if credential == "" then NeedCredential
    else if credential == recordPassword then Granted
    else Denied
  }

  /** Which decision a response reflects, when it reflects one. */
  function DecisionOf(r: GetResponse): Option<Decision> {
    match r
    case PasswordPage(_) => Some(NeedCredential)
    case Unauthorized => Some(Denied)
    case AcceptedTarget(_) => Some(Granted)
    case FoundTarget(_) => Some(Granted)
    case _ => None
  }

  /** The handler follows the intended access rule when the protection flag agrees with the
      stored password, the mapping is stored, and no key is sent for a public mapping. */
  lemma GetFollowsGuard(c: Config, m: string, body: Body, key: string,
                        isProtected: string -> Protection, s: Store)
    requires body != Malformed
    requires isProtected(m).protected <==> isProtected(m).password != ""
    requires isProtected(m).protected || key == ""
    requires HasMapping(s, m)
    ensures DecisionOf(Get(c, "/" + m, body, key, isProtected, Healthy, s).response)
            == Some(GuardDecision(isProtected(m).protected, isProtected(m).password, key))
  {
    TrimLeftCharPath(m);
  }

  /** Where the handler departs from that decision: a key sent for a public mapping is a 401,
      where the intended access rule grants access. */
  lemma GetRefusesKeyOnPublic(c: Config, m: string, body: Body, key: string,
                              isProtected: string -> Protection, fault: Fault, s: Store)
    requires body != Malformed
    requires isProtected(m) == Protection(false, "") && key != ""
    ensures GuardDecision(false, "", key) == Granted
    ensures Get(c, "/" + m, body, key, isProtected, fault, s).response == Unauthorized
  {
    TrimLeftCharPath(m);
  }

  /** A mapping flagged protected with an empty stored password can never be opened. */
  lemma GetLockedWithEmptyPassword(c: Config, uri: string, body: Body, key: string,
                                   isProtected: string -> Protection, fault: Fault, s: Store)
    requires isProtected(TrimLeftChar(uri)) == Protection(true, "")
    ensures Get(c, uri, body, key, isProtected, fault, s).hits == []
  {
  }

  /** End to end: a link created with healthy store round trips, then opened without a key as
      a public mapping, redirects to the long url and records one hit. */
  lemma {:induction false} CreateThenResolve(c: Config, a: PutRequest, env: PutEnv, s: Store,
                                             body: Body, isProtected: string -> Protection)
    requires LookupsHealthy(env)
    requires Put(c, Some(a), env, s).outcome.Replied?
    requires Put(c, Some(a), env, s).outcome.response.Created?
    requires body != Malformed
    ensures var r := Put(c, Some(a), env, s);
      var m := r.store[|s|].mapping;
      isProtected(m) == Protection(false, "") ==>
        Get(c, "/" + m, body, "", isProtected, Healthy, r.store) == GetResult(FoundTarget(a.url), [m])
  {
    var r := Put(c, Some(a), env, s);
    PutCreated(c, a, env, s);
    PutWritesFreeToken(c, Some(a), env, s);
    var m := r.store[|s|].mapping;
    assert r.store == Insert(s, a.url, m, a.password, a.maxHitCount, env.insert).store;
    InsertThenFilterFromMapping(s, a.url, m, a.password, a.maxHitCount, env.insert);
    TrimLeftCharPath(m);
  }
}
