# gShort short-link engine, modelled in Dafny

gShort is a URL shortener written in Go. A POST to `/short` creates a short link for a long
url (gShortPut). A GET on `/<mapping>` resolves a token back to its url (gShortGet), with an
optional per-link password and a hit counter. Both handlers use a MongoDB collection of
`{url, mapping}` documents.

This project pulls the decision logic out of the HTTP handlers and states it as pure functions:

- `Settings`: the configuration record (domain, protocol, port, reCAPTCHA keys, token length and
  charset). It is a value, fixed for the whole run.
- `Decimal`: `strconv.Itoa`, with its inverse and a round-trip lemma. Ports appear in links and
  in the Host check through it.
- `Utils` (utils.go): token generation with the random source as an oracle, `trimLeftChar`,
  `buildMapping` and the Host check `comingFromDomain`.
- `Store` (DataBase/mongodb.go): the collection as a `seq<Record>` in insertion order. `Insert`
  appends. `FilterFromMapping` and `FilterFromURL` find the first match or fail. Every round trip
  takes a `Fault`: healthy, failing before anything is written, or failing only at the final
  Disconnect.
- `Shortener` (gshort.go):
  - `Put` is gShortPut.
  - `Get` is gShortGet, with the response as a datatype and the hitCounter calls as a log.

`Shortener.FindFreeToken` is the generate-until-absent loop written as a loop. It stands alone:
`Put` uses the recursive `FirstFree`, and `FindFreeToken` is proved to compute the same answer.

The central property is `Shortener.PutKeepsUnique`, extended to any series of creates by
`Shortener.PutAllKeepsUnique`. It says that when the candidate lookups are healthy, a create
never adds a second document with a mapping that is already stored. The proof rests on the loop
leaving only on a lookup error (`PutWritesFreeToken`). `PutFaultyLookupDuplicates` shows the
other side: the code treats every error the same way, so a lookup that fails to connect lets a
duplicate through.

Where the intended behaviour and the code disagree, the model follows the code:

- Reuse of an existing link is tested with `len(Password) == 0 || MaxHitCount == 0` (an OR). A
  password-protected request with no hit limit is therefore reused (`PutDedupDespitePassword`).
- On resolve, past the password-page rule (a protected mapping asked for with an empty `Key`),
  any `Key` that differs from the stored password gets a 401. This includes a key sent for a
  public mapping, which the intended access rule (`GuardDecision`) would grant
  (`GetRefusesKeyOnPublic`).
- Reuse does not look at the stored record's password. A public create for a url that only a
  password-protected record holds is answered with that protected link
  (`PutDedupHandsOutProtectedLink`).
- `Insert` in DataBase/mongodb.go takes only url and mapping, but gshort.go calls it with a
  password and a hit limit as well. The model's `Record` carries all four fields, as the caller
  implies.
- Links and the Host check can disagree. For http on port 443, the short link names
  `domain:443` but the Host check accepts only the bare domain
  (`ShortLinkHostRefusedOnCrossedPort`).

## Model

| member | source | states |
|---|---|---|
| Utils.GenerateString | utils.go:37-44 | the token has exactly `length` characters and each is a character of the charset; needs a non-empty charset only when a character is drawn |
| Utils.GenerateStringCoversAll | utils.go:37-44 | every string of that length over the charset is produced by some random draws, so the oracle rules out no token |
| Utils.TrimLeftChar | utils.go:46-53 | "" maps to ""; otherwise the input is the first character followed by the result |
| Utils.TrimLeftCharPath | utils.go:46-53 | the request path "/m" yields the mapping m |
| Utils.BuildMapping | utils.go:79-87 | every short link starts with protocol "://" domain and ends with "/" and the token |
| Utils.BuildMappingPortDetermined | utils.go:80-83 | when the port is written (http off 80, https off 443), two servers on one domain and protocol with different ports never produce the same link |
| Utils.BuildMappingInjective | utils.go:79-87 | under one configuration, distinct tokens give distinct short links |
| Utils.ComingFromDomain | utils.go:92-103 | an accepted Host starts with the domain, and is exactly the domain precisely when the port is 80 or 443 |
| Utils.ComingFromDomainPortDetermined | utils.go:93-96 | off ports 80 and 443, one Host header passes the check for at most one port |
| Utils.ComingFromDomainRefusesDefaultPort | utils.go:97-101 | on ports 80 and 443, "domain:port" is refused |
| Utils.ShortLinkHostAccepted | utils.go:79-103 | for http or https, unless the port is the other protocol's default, the host written in a short link passes the Host check |
| Utils.ShortLinkHostRefusedOnCrossedPort | utils.go:79-103 | for http on port 443 the link names domain:443, and the Host check refuses domain:443 |
| Decimal.ItoaRoundTrip | utils.go:81 | the decimal rendering of a port reads back as the same number, with a leading '-' exactly for negatives |
| Decimal.Itoa | utils.go:81 | the rendering starts with '-' exactly for negatives; the rest is canonical decimal (digits only, no leading zero except in "0") whose value is the magnitude |
| Decimal.ItoaInjective | utils.go:94 | distinct ports render differently |
| Store.FindOne | DataBase/mongodb.go:56-61 | the result is a position whose document matches the filter, with no match before it; no result means no document matches |
| Store.Insert | DataBase/mongodb.go:33-48 | unless the round trip fails before the write, exactly one record {url, mapping, password, hit limit} is appended and the earlier records are unchanged; an error is reported exactly when the round trip is not healthy |
| Store.InsertAcceptsDuplicate | DataBase/mongodb.go:33-48 | Insert checks nothing: a duplicate mapping is accepted and uniqueness is lost |
| Store.InsertFreshKeepsUnique | DataBase/mongodb.go:33-48 | appending a mapping the collection lacks keeps mappings unique |
| Store.FilterFromMapping | DataBase/mongodb.go:51-69 | a result is the url of some record with that mapping; a result comes exactly when the round trip is healthy and the mapping is stored; the no-documents error comes exactly when the round trip reaches the collection and the mapping is absent |
| Store.FilterFromUrl | DataBase/mongodb.go:72-90 | the same three facts for the url filter, returning a stored mapping |
| Store.FilterFromMappingUnique | DataBase/mongodb.go:51-69 | with unique mappings, the lookup of a stored mapping names exactly that record's url |
| Store.InsertThenFilterFromMapping | DataBase/mongodb.go:33-69 | after writing a mapping that was absent, looking it up yields the written url |
| Shortener.Put | gshort.go:132-194 | an undecodable body, an empty url or an invalid url is a 400 with the store unchanged; the store either stays the same or gains exactly one record at its end, and only a response with status 201 or 500 comes with a written record; a 201 always writes |
| Shortener.FirstFree | gshort.go:172-179 | the chosen round's lookup returned an error and every earlier round's lookup found its candidate; no round means every lookup found its candidate |
| Shortener.FindFreeToken | gshort.go:171-179 | the loop, standing alone, leaves at exactly the first round whose lookup returns an error, the round FirstFree names |
| Shortener.PutCaptchaOnlyWhenEnabled | gshort.go:148-158 | unless both reCAPTCHA keys are set, the captcha service's verdict cannot change the result |
| Shortener.PutCaptchaRejects | gshort.go:151-157 | an enabled captcha that rejects gives a 400 and writes nothing |
| Shortener.PutDedup | gshort.go:160-169 | under the reuse condition, a url the store already holds gets a 200 with the short link of a stored mapping for that url, and nothing is written |
| Shortener.PutDedupHandsOutProtectedLink | gshort.go:160-168 | a public create for a url held only by a password-protected record gets a 200 with that protected record's link |
| Shortener.PutNoDedup | gshort.go:160 | with a password and a non-zero hit limit there is never a 200, and the url lookup's fate has no effect |
| Shortener.PutDedupDespitePassword | gshort.go:160 | a request with a password but no hit limit is still answered with the existing link |
| Shortener.PutWritesFreeToken | gshort.go:171-181 | a written token is the candidate of a round whose FilterFromMapping returned an error; with healthy lookups it was absent from the store |
| Shortener.PutKeepsUnique | gshort.go:171-181 | with healthy lookups, a store with unique mappings keeps them unique after a create |
| Shortener.PutAllKeepsUnique | gshort.go:132-194 | the same for any series of creates, one after another |
| Shortener.PutCreated | gshort.go:172-193 | a 201 carries the request url and buildMapping of the written token; the token has the configured length and only charset characters; the record keeps the request's url, password and hit limit |
| Shortener.PutInsertFails | gshort.go:181-186 | a 500 means the insert reported an error; the store is unchanged if the write did not happen, and holds the new record if only the disconnect failed |
| Shortener.PutInsertOutcome | gshort.go:181-193 | once the request passes the checks, is not answered by reuse and a free token is found, a failed insert is a 500 and a successful one is a 201 with the request url and buildMapping of the new token |
| Shortener.PutTwiceSameLink | gshort.go:160-193 | creating a new url and then creating it again under the reuse condition returns the same short link with a 200 |
| Shortener.PutTwiceDistinct | gshort.go:171-193 | two creates in a row that both write get different tokens and different short links |
| Shortener.PutFaultyLookupDuplicates | gshort.go:173-179 | a candidate lookup that fails to connect ends the loop, and the create stores a second record under a mapping already present |
| Shortener.Get | gshort.go:196-253 | hitCounter is called at most once, and exactly when the answer is a 202 or a 302 to the target; it is called with the requested mapping; a target is the url of a stored record with that mapping, and is given only when the key equals the stored password; a 202 only for a protected mapping; a 401 only for a key other than the stored password |
| Shortener.GetNeedsKey | gshort.go:211-215 | a protected mapping requested with no key is redirected to protocol://domain:port/password/mapping, with the port always written, and no hit |
| Shortener.GetWrongKey | gshort.go:217-220 | past the first rule, a key different from the stored password is a 401 with no hit |
| Shortener.GetGranted | gshort.go:222-252 | the right key on a protected stored mapping is a 202 with the target; an empty key on a public stored mapping is a 302 to it; each records exactly one hit |
| Shortener.GetUnknownGoesHome | gshort.go:239-245 | past the key checks, a mapping the store does not return redirects home with no hit |
| Shortener.GetFollowsGuard | gshort.go:211-252 | when the flag agrees with the password, the mapping is stored and no key is sent for a public mapping, the response shows the intended access rule's decision (GuardDecision): granted, credential needed or denied |
| Shortener.GetRefusesKeyOnPublic | gshort.go:217-220 | a key sent for a public mapping is a 401, where the intended access rule grants access |
| Shortener.GetLockedWithEmptyPassword | gshort.go:211-220 | a mapping flagged protected with an empty stored password never records a hit |
| Shortener.CreateThenResolve | gshort.go:181-247 | a link created through healthy lookups, opened without a key as a public mapping, redirects to the long url and records one hit |

## Left out

- HTTP routing, static files, CORS headers, the index template and `ListenAndServe`
  (gshort.go:34-130, 255-267; utils.go:15-26, 55-76) are serving plumbing. The Host check is
  modelled, but not the redirects that the router issues when it fails.
- JSON decoding of request bodies is left out. A create body is `Option<PutRequest>`, and `None`
  means the body did not decode. A resolve body is `NoBody`, `Decodes` or `Malformed`, because
  its decoded content is never used. Response bodies are datatypes, not JSON text, and the
  always-empty `password` field of the JSON response is not modelled.
- `isValidUrl` delegates to `net/url.ParseRequestURI`. It is an uninterpreted function
  parameter.
- reCAPTCHAv3/reCAPTCHAv3.go makes an HTTPS call to Google. It is an accept/reject function of
  (secret, token, domain), the arguments the handler passes.
- Config/config.go (flags, file reading, environment overrides) is left out. The configuration
  is an immutable value.
- The random source and its time-based seed are an oracle. `draw(i)` gives the raw value, and
  `Intn(n)` is `draw(i) % n`. Characters stand for the bytes Go indexes, so a multi-byte charset
  is not modelled.
- Shortener.FindFreeToken: the Go loop has no bound. The model takes a finite sequence of
  attempts. When every attempt finds its candidate taken, the result is `Exhausted`, which
  stands for the source spinning on.
- The MongoDB client (connect, ping, disconnect, contexts) is reduced to the three-valued
  `Fault` of each round trip. `FindOne` is modelled as the first match in insertion order. The
  contracts promise only some match, because MongoDB does not guarantee an order.
- `IsPasswordProtected` and `hitCounter` are called by gshort.go but are not part of this
  model. The first is an uninterpreted function from mapping to (protected, password); its
  error is ignored by the handler. The second is a log of the mappings it is called with. Its
  error is only logged, so it is not an input. Hit counts, increments and monotonicity are
  therefore not modelled.
- Redirect locations are the argument passed to `http.Redirect`, before the escaping of
  non-ASCII characters and the path cleaning it applies. The 202 path sets `Location` directly
  and is modelled exactly.
- MaxHitCount is stored but never enforced, and no expiry is invented.
- Concurrent creates are left out. The check-then-insert race between two requests is outside
  this sequential model.
- A handler panic (negative token length, or an empty charset with a positive length) is the
  `Panic` outcome. What net/http does after recovering from it is not modelled.
