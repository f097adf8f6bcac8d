/** The MongoDB collection of short links, modelled as the sequence of its documents in
    natural (insertion) order. Each operation is one round trip that can fail. */
module Store {
  import opened Wrappers

  /** One document. The password and hit limit are what the create handler passes along. */
  datatype Record = Record(url: string, mapping: string, password: string, maxHitCount: int)

  type Store = seq<Record>

  /** How one round trip goes: connect/ping or the operation itself can fail before anything
      is written, or the operation completes and only the final Disconnect reports an error. */
  datatype Fault = Healthy | Unreachable | DisconnectFails

  /** `mongo.ErrNoDocuments` from FindOne, or any connection-level error. */
  datatype StoreError = NoDocuments | Unavailable

  /** The two equality filters the code builds. */
  datatype Filter = ByMapping(mapping: string) | ByUrl(url: string)

  predicate Matches(r: Record, f: Filter) {
    match f
    case ByMapping(m) => r.mapping == m
    case ByUrl(u) => r.url == u
  }

  predicate HasMapping(s: Store, m: string) {
    exists i :: 0 <= i < |s| && s[i].mapping == m
  }

  predicate HasUrl(s: Store, u: string) {
    exists i :: 0 <= i < |s| && s[i].url == u
  }

  /** The uniqueness the short-link scheme relies on: no two documents share a mapping. */
  predicate UniqueMappings(s: Store) {
    forall i, j :: 0 <= i < j < |s| ==> s[i].mapping != s[j].mapping
  }

  /** FindOne: the first document at or after position k that the filter matches. */
  function FindOne(s: Store, f: Filter, k: nat): (r: Option<nat>)
    requires k <= |s|
    ensures r.Some? ==> k <= r.value < |s| && Matches(s[r.value], f)
    ensures r.Some? ==> forall j :: k <= j < r.value ==> !Matches(s[j], f)
    ensures r.None? ==> forall j :: k <= j < |s| ==> !Matches(s[j], f)
    decreases |s| - k
  {
    if k == |s| then None
    else if Matches(s[k], f) then Some(k)
    else FindOne(s, f, k + 1)
  }

  /** The result of Insert: the collection afterwards and whether an error was returned. */
  datatype InsertResult = InsertResult(store: Store, failed: bool)

  /** Insert: appends one document, with no check that its mapping or url is new. */
  function Insert(s: Store, url: string, mapping: string, password: string, maxHitCount: int,
                  fault: Fault): (r: InsertResult)
    ensures r.failed <==> fault != Healthy
    ensures fault == Unreachable ==> r.store == s
    ensures fault != Unreachable ==>
      && |r.store| == |s| + 1
      && r.store[..|s|] == s
      && r.store[|s|] == Record(url, mapping, password, maxHitCount)
  {
    match fault
    case Unreachable => InsertResult(s, true)
    case DisconnectFails => InsertResult(s + [Record(url, mapping, password, maxHitCount)], true)
    case Healthy => InsertResult(s + [Record(url, mapping, password, maxHitCount)], false)
  }

  /** FilterFromMapping: the url of a document with this mapping. A miss is NoDocuments; a
      failed round trip is Unavailable even when the mapping is present. */
  function FilterFromMapping(s: Store, m: string, fault: Fault): (r: Result<string, StoreError>)
    ensures r.Ok? ==> exists i :: 0 <= i < |s| && s[i].mapping == m && s[i].url == r.value
    ensures r.Ok? <==> fault == Healthy && HasMapping(s, m)
    ensures r == Err(NoDocuments) <==> fault != Unreachable && !HasMapping(s, m)
  {
    var found := FindOne(s, ByMapping(m), 0);
    if fault == Unreachable then Err(Unavailable)
    else if found.None? then Err(NoDocuments)
    else if fault == DisconnectFails then Err(Unavailable)
    else
      assert fault.Healthy? && s[found.value].mapping == m;
      Ok(s[found.value].url)
  }

  /** FilterFromURL: the mapping of a document with this url, with the same error cases. */
  function FilterFromUrl(s: Store, u: string, fault: Fault): (r: Result<string, StoreError>)
    ensures r.Ok? ==> exists i :: 0 <= i < |s| && s[i].url == u && s[i].mapping == r.value
    ensures r.Ok? <==> fault == Healthy && HasUrl(s, u)
    ensures r == Err(NoDocuments) <==> fault != Unreachable && !HasUrl(s, u)
  {
    var found := FindOne(s, ByUrl(u), 0);
    if fault == Unreachable then Err(Unavailable)
    else if found.None? then Err(NoDocuments)
    else if fault == DisconnectFails then Err(Unavailable)
    else
      assert fault.Healthy? && s[found.value].url == u;
      Ok(s[found.value].mapping)
  }

  /** When at most one document carries the mapping, the lookup names that document's url. */
  lemma FilterFromMappingUnique(s: Store, i: nat)
    requires UniqueMappings(s)
    requires i < |s|
    ensures FilterFromMapping(s, s[i].mapping, Healthy) == Ok(s[i].url)
  {
    var r := FilterFromMapping(s, s[i].mapping, Healthy);
    var j :| 0 <= j < |s| && s[j].mapping == s[i].mapping && s[j].url == r.value;
    assert j == i;
  }

  /** A written token is found again: after inserting a mapping the collection did not hold,
      looking it up yields the inserted url. */
  lemma InsertThenFilterFromMapping(s: Store, url: string, m: string, password: string,
                                    maxHitCount: int, fault: Fault)
    requires !HasMapping(s, m)
    requires fault != Unreachable
    ensures FilterFromMapping(Insert(s, url, m, password, maxHitCount, fault).store, m, Healthy)
            == Ok(url)
  {
    var t := Insert(s, url, m, password, maxHitCount, fault).store;
    var r := FilterFromMapping(t, m, Healthy);
    assert t[|s|].mapping == m;
    var j :| 0 <= j < |t| && t[j].mapping == m && t[j].url == r.value;
    assert j == |s|;
  }

  /** Inserting a mapping the collection does not hold keeps mappings unique. */
  lemma InsertFreshKeepsUnique(s: Store, url: string, m: string, password: string,
                               maxHitCount: int, fault: Fault)
    requires UniqueMappings(s)
    requires !HasMapping(s, m)
    ensures UniqueMappings(Insert(s, url, m, password, maxHitCount, fault).store)
  {
    var t := Insert(s, url, m, password, maxHitCount, fault).store;
    forall i, j | 0 <= i < j < |t|
      ensures t[i].mapping != t[j].mapping
    {
      if j == |s| {
        assert t[i] == s[i];
      } else {
        assert t[i] == s[i] && t[j] == s[j];
      }
    }
  }

  /** Insert itself enforces nothing: a duplicate mapping is accepted and breaks uniqueness. */
  lemma InsertAcceptsDuplicate(s: Store, url: string, m: string, password: string,
                               maxHitCount: int)
    requires HasMapping(s, m)
    ensures !Insert(s, url, m, password, maxHitCount, Healthy).failed
    ensures !UniqueMappings(Insert(s, url, m, password, maxHitCount, Healthy).store)
  {
    var t := Insert(s, url, m, password, maxHitCount, Healthy).store;
    var i :| 0 <= i < |s| && s[i].mapping == m;
    assert t[i] == s[i] && t[|s|].mapping == m;
  }
}
