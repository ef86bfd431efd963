/**
 * Stage one of the matcher: the hash-bucket index of the shell accounts and
 * the fast candidate filter. A Python dict keeps its keys in insertion order
 * and that order decides the order of the candidates, so a bucket table is an
 * ordered list of (key, members) entries.
 */
module CandidateIndex {
  import opened Ascii
  import opened Options
  import opened Accounts
  import opened Normalize

  /** One dict entry: a key and the list stored under it. */
  datatype Bucket = Bucket(key: string, members: seq<Shell>)

  type Buckets = seq<Bucket>

  /** The keys of a bucket table, in insertion order. */
  function Keys(bs: Buckets): (ks: seq<string>)
    ensures |ks| == |bs| && forall i :: 0 <= i < |bs| ==> ks[i] == bs[i].key
  {
    if bs == [] then [] else [bs[0].key] + Keys(bs[1..])
  }

  predicate DistinctKeys(bs: Buckets) {
    bs == [] || (bs[0].key !in Keys(bs[1..]) && DistinctKeys(bs[1..]))
  }

  /** `buckets.get(k, [])`. */
  function Lookup(bs: Buckets, k: string): (r: seq<Shell>)
    ensures k !in Keys(bs) ==> r == []
  {
    if bs == [] then []
    else if bs[0].key == k then bs[0].members
    else Lookup(bs[1..], k)
  }

  /** With distinct keys, looking up a bucket's key finds that bucket. */
  lemma {:induction false} LookupFinds(bs: Buckets, i: nat)
    requires DistinctKeys(bs) && i < |bs|
    ensures Lookup(bs, bs[i].key) == bs[i].members
  {
    if i > 0 {
      assert bs[1..][i - 1] == bs[i];
      assert Keys(bs[1..])[i - 1] == bs[i].key;
      LookupFinds(bs[1..], i - 1);
    }
  }

  /** `if k not in buckets: buckets[k] = []` followed by `buckets[k].append(x)`. */
  function Append(bs: Buckets, k: string, x: Shell): (r: Buckets)
    ensures r != []
  {
    if bs == [] then [Bucket(k, [x])]
    else if bs[0].key == k then [Bucket(k, bs[0].members + [x])] + bs[1..]
    else [bs[0]] + Append(bs[1..], k, x)
  }

  /** x joins the end of k's list and every other list stays as it was. */
  lemma {:induction false} AppendLookup(bs: Buckets, k: string, x: Shell, k': string)
    ensures Lookup(Append(bs, k, x), k') == if k' == k then Lookup(bs, k) + [x] else Lookup(bs, k')
  {
    if bs != [] {
      var r := Append(bs, k, x);
      if bs[0].key == k {
        assert r[1..] == bs[1..];
      } else {
        AppendLookup(bs[1..], k, x, k');
        assert r[1..] == Append(bs[1..], k, x);
      }
    }
  }

  /** A new key goes last; the keys already present keep their order. */
  lemma {:induction false} AppendKeys(bs: Buckets, k: string, x: Shell)
    ensures Keys(Append(bs, k, x)) == if k in Keys(bs) then Keys(bs) else Keys(bs) + [k]
  {
    if bs != [] {
      var r := Append(bs, k, x);
      if bs[0].key == k {
        assert r[1..] == bs[1..];
        assert Keys(r) == [k] + Keys(bs[1..]);
      } else {
        AppendKeys(bs[1..], k, x);
        assert r[1..] == Append(bs[1..], k, x);
        assert Keys(r) == [bs[0].key] + Keys(r[1..]);
        assert Keys(bs) == [bs[0].key] + Keys(bs[1..]);
      }
    }
  }

  lemma {:induction false} AppendDistinct(bs: Buckets, k: string, x: Shell)
    requires DistinctKeys(bs)
    ensures DistinctKeys(Append(bs, k, x))
  {
    if bs != [] && bs[0].key != k {
      AppendDistinct(bs[1..], k, x);
      AppendKeys(bs[1..], k, x);
      var r := Append(bs, k, x);
      assert r[1..] == Append(bs[1..], k, x);
    }
  }

  /** The concatenation of the buckets' lists, in key order. */
  function Flatten(bs: Buckets): seq<Shell> {
    if bs == [] then [] else bs[0].members + Flatten(bs[1..])
  }

  /** A shell is in the flattened table exactly when it is in one of the buckets. */
  lemma {:induction false} FlattenMembers(bs: Buckets, x: Shell)
    ensures x in Flatten(bs) <==> exists i :: 0 <= i < |bs| && x in bs[i].members
  {
    if bs != [] {
      FlattenMembers(bs[1..], x);
      if x in Flatten(bs[1..]) {
        var i :| 0 <= i < |bs[1..]| && x in bs[1..][i].members;
        assert x in bs[i + 1].members;
      }
      if x !in bs[0].members && exists i :: 0 <= i < |bs| && x in bs[i].members {
        var i :| 0 <= i < |bs| && x in bs[i].members;
        assert x in bs[1..][i - 1].members;
      }
    }
  }

  /** The shells found by a lookup are in the flattened table. */
  lemma {:induction false} LookupInFlatten(bs: Buckets, k: string)
    ensures forall x :: x in Lookup(bs, k) ==> x in Flatten(bs)
  {
    if bs != [] && bs[0].key != k {
      LookupInFlatten(bs[1..], k);
    }
  }

  /** The Ids of a list of shells. */
  function IdsOf(xs: seq<Shell>): set<string> {
    set x | x in xs :: x.id
  }

  // ---------------------------------------------------------------------------
  // Building a table

  /** x appended under each key of ks in turn. */
  function AppendAll(bs: Buckets, ks: seq<string>, x: Shell): Buckets {
    if ks == [] then bs else Append(AppendAll(bs, ks[..|ks| - 1], x), ks[|ks| - 1], x)
  }

  /** The table built by appending every shell, in input order, under each of its keys. */
  function Index(shells: seq<Shell>, keysOf: Shell -> seq<string>): Buckets {
    if shells == [] then []
    else
      var last := shells[|shells| - 1];
      AppendAll(Index(shells[..|shells| - 1], keysOf), keysOf(last), last)
  }

  /** Indexing one more shell appends it under each of its keys. */
  lemma IndexStep(shells: seq<Shell>, n: nat, keysOf: Shell -> seq<string>)
    requires n < |shells|
    ensures Index(shells[..n + 1], keysOf) == AppendAll(Index(shells[..n], keysOf), keysOf(shells[n]), shells[n])
  {
    assert shells[..n + 1][..n] == shells[..n];
  }

  /** One copy of x for every occurrence of k in ks. */
  function Copies(x: Shell, ks: seq<string>, k: string): seq<Shell> {
    if ks == [] then [] else Copies(x, ks[..|ks| - 1], k) + (if ks[|ks| - 1] == k then [x] else [])
  }

  /** The shells with k among their keys, in input order, once per occurrence. */
  function WithKey(shells: seq<Shell>, keysOf: Shell -> seq<string>, k: string): seq<Shell> {
    if shells == [] then []
    else
      var last := shells[|shells| - 1];
      WithKey(shells[..|shells| - 1], keysOf, k) + Copies(last, keysOf(last), k)
  }

  lemma {:induction false} LookupAppendAll(bs: Buckets, ks: seq<string>, x: Shell, k: string)
    ensures Lookup(AppendAll(bs, ks, x), k) == Lookup(bs, k) + Copies(x, ks, k)
  {
    if ks != [] {
      LookupAppendAll(bs, ks[..|ks| - 1], x, k);
      AppendLookup(AppendAll(bs, ks[..|ks| - 1], x), ks[|ks| - 1], x, k);
    }
  }

  /** A bucket holds the shells with its key, in input order, once per occurrence of the key. */
  lemma {:induction false} LookupIndex(shells: seq<Shell>, keysOf: Shell -> seq<string>, k: string)
    ensures Lookup(Index(shells, keysOf), k) == WithKey(shells, keysOf, k)
  {
    if shells != [] {
      var last := shells[|shells| - 1];
      LookupIndex(shells[..|shells| - 1], keysOf, k);
      LookupAppendAll(Index(shells[..|shells| - 1], keysOf), keysOf(last), last, k);
    }
  }

  lemma {:induction false} CopiesSound(x: Shell, ks: seq<string>, k: string)
    ensures forall y :: y in Copies(x, ks, k) ==> y == x && k in ks
  {
    if ks != [] {
      CopiesSound(x, ks[..|ks| - 1], k);
    }
  }

  lemma {:induction false} WithKeySound(shells: seq<Shell>, keysOf: Shell -> seq<string>, k: string)
    ensures forall x :: x in WithKey(shells, keysOf, k) ==> x in shells && k in keysOf(x)
  {
    if shells != [] {
      var last := shells[|shells| - 1];
      WithKeySound(shells[..|shells| - 1], keysOf, k);
      CopiesSound(last, keysOf(last), k);
    }
  }

  lemma {:induction false} AppendAllDistinct(bs: Buckets, ks: seq<string>, x: Shell)
    requires DistinctKeys(bs)
    ensures DistinctKeys(AppendAll(bs, ks, x))
  {
    if ks != [] {
      AppendAllDistinct(bs, ks[..|ks| - 1], x);
      AppendDistinct(AppendAll(bs, ks[..|ks| - 1], x), ks[|ks| - 1], x);
    }
  }

  lemma {:induction false} IndexDistinct(shells: seq<Shell>, keysOf: Shell -> seq<string>)
    ensures DistinctKeys(Index(shells, keysOf))
  {
    if shells != [] {
      var last := shells[|shells| - 1];
      IndexDistinct(shells[..|shells| - 1], keysOf);
      AppendAllDistinct(Index(shells[..|shells| - 1], keysOf), keysOf(last), last);
    }
  }

  /** Every shell in a bucket is an input shell that has the bucket's key. */
  lemma IndexSound(shells: seq<Shell>, keysOf: Shell -> seq<string>, i: nat, x: Shell)
    requires i < |Index(shells, keysOf)| && x in Index(shells, keysOf)[i].members
    ensures x in shells && Index(shells, keysOf)[i].key in keysOf(x)
  {
    var bs := Index(shells, keysOf);
    IndexDistinct(shells, keysOf);
    LookupFinds(bs, i);
    LookupIndex(shells, keysOf, bs[i].key);
    WithKeySound(shells, keysOf, bs[i].key);
  }

  // ---------------------------------------------------------------------------
  // The two tables of create_hash_buckets

  /** The website key of a shell: its domain token, if it has one. */
  function WebsiteKeys(s: Shell): (ks: seq<string>)
    ensures |ks| <= 1
  {
    match WebsiteToken(s.website)
    case None => []
    case Some(k) => [k]
  }

  /** Normalised name tokens longer than two characters, in order and with repeats. */
  function LongTokens(ws: seq<string>): seq<string> {
    if ws == [] then []
    else LongTokens(ws[..|ws| - 1]) + (if |ws[|ws| - 1]| > 2 then [ws[|ws| - 1]] else [])
  }

  /** The long tokens are exactly the tokens longer than two characters. */
  lemma {:induction false} LongTokensMembers(ws: seq<string>)
    ensures forall t :: t in LongTokens(ws) <==> t in ws && |t| > 2
  {
    if ws != [] {
      LongTokensMembers(ws[..|ws| - 1]);
      assert ws == ws[..|ws| - 1] + [ws[|ws| - 1]];
    }
  }

  /** The name keys of a company name. */
  function NameTokens(name: string): seq<string> {
    LongTokens(Words(Normalized(name)))
  }

  function NameKeys(s: Shell): seq<string> {
    NameTokens(s.name)
  }

  function WebsiteIndex(shells: seq<Shell>): Buckets {
    Index(shells, WebsiteKeys)
  }

  function NameIndex(shells: seq<Shell>): Buckets {
    Index(shells, NameKeys)
  }

  /** Every shell in a website bucket is an input shell whose domain token is
      the bucket's key. */
  lemma WebsiteBucketsSound(shells: seq<Shell>, i: nat, x: Shell)
    requires i < |WebsiteIndex(shells)| && x in WebsiteIndex(shells)[i].members
    ensures x in shells && WebsiteToken(x.website) == Some(WebsiteIndex(shells)[i].key)
  {
    IndexSound(shells, WebsiteKeys, i, x);
  }

  /** Each shell is in at most one website bucket. */
  lemma WebsiteBucketsDisjoint(shells: seq<Shell>, i: nat, j: nat, x: Shell)
    requires i < |WebsiteIndex(shells)| && j < |WebsiteIndex(shells)|
    requires x in WebsiteIndex(shells)[i].members && x in WebsiteIndex(shells)[j].members
    ensures i == j
  {
    IndexSound(shells, WebsiteKeys, i, x);
    IndexSound(shells, WebsiteKeys, j, x);
    IndexDistinct(shells, WebsiteKeys);
    if i < j {
      DistinctAt(WebsiteIndex(shells), i, j);
    } else if j < i {
      DistinctAt(WebsiteIndex(shells), j, i);
    }
  }

  lemma {:induction false} DistinctAt(bs: Buckets, i: nat, j: nat)
    requires DistinctKeys(bs) && i < j < |bs|
    ensures bs[i].key != bs[j].key
  {
    assert DistinctKeys(bs[1..]) && bs[0].key !in Keys(bs[1..]);
    assert bs[1..][j - 1] == bs[j];
    if i == 0 {
      assert Keys(bs[1..])[j - 1] == bs[j].key;
    } else {
      assert bs[1..][i - 1] == bs[i] && bs[1..][j - 1] == bs[j];
      DistinctAt(bs[1..], i - 1, j - 1);
    }
  }

  /** Every shell in a name bucket is an input shell, and the bucket's key is
      one of its normalised name tokens longer than two characters. */
  lemma NameBuckets(shells: seq<Shell>, i: nat, x: Shell)
    requires i < |NameIndex(shells)| && x in NameIndex(shells)[i].members
    ensures x in shells
    ensures NameIndex(shells)[i].key in Words(Normalized(x.name)) && |NameIndex(shells)[i].key| > 2
  {
    IndexSound(shells, NameKeys, i, x);
    LongTokensMembers(Words(Normalized(x.name)));
  }

  /** The website half of one create_hash_buckets step. */
  method AddToWebsiteBuckets(bs: Buckets, shell: Shell) returns (r: Buckets)
    ensures r == AppendAll(bs, WebsiteKeys(shell), shell)
  {
    r := bs;
    if shell.website != [] {
      var domain := ExtractDomain(shell.website);
      if domain.Some? && domain.value != [] {
        var company := CompanyToken(domain.value);
        if company.Some? {
          assert [company.value][..0] == [];
          r := Append(r, company.value, shell);
        }
      }
    }
  }

  /** The inner loop of create_hash_buckets: shell under each token longer than two characters. */
  method AddUnderLongTokens(bs: Buckets, tokens: seq<string>, shell: Shell) returns (r: Buckets)
    ensures r == AppendAll(bs, LongTokens(tokens), shell)
  {
    r := bs;
    for t := 0 to |tokens|
      invariant r == AppendAll(bs, LongTokens(tokens[..t]), shell)
    {
      assert tokens[..t + 1][..t] == tokens[..t];
      var ks := LongTokens(tokens[..t]);
      if |tokens[t]| > 2 {
        assert LongTokens(tokens[..t + 1]) == ks + [tokens[t]];
        assert (ks + [tokens[t]])[..|ks|] == ks;
        r := Append(r, tokens[t], shell);
      } else {
        assert LongTokens(tokens[..t + 1]) == ks;
      }
    }
    assert tokens[..|tokens|] == tokens;
  }

  /** The name half of one create_hash_buckets step. */
  method AddToNameBuckets(bs: Buckets, shell: Shell) returns (r: Buckets)
    ensures r == AppendAll(bs, NameKeys(shell), shell)
  {
    r := bs;
    if shell.name != [] {
      var normalized := NormalizeCompanyName(shell.name);
      if normalized != [] {
        r := AddUnderLongTokens(bs, Words(normalized), shell);
      } else {
        assert Words(normalized) == [];
      }
    } else {
      assert Words(Normalized(shell.name)) == [];
    }
  }

  /** create_hash_buckets. */
  method CreateHashBuckets(shells: seq<Shell>) returns (websiteBuckets: Buckets, nameBuckets: Buckets)
    ensures websiteBuckets == WebsiteIndex(shells)
    ensures nameBuckets == NameIndex(shells)
  {
    websiteBuckets, nameBuckets := [], [];
    for n := 0 to |shells|
      invariant websiteBuckets == Index(shells[..n], WebsiteKeys)
      invariant nameBuckets == Index(shells[..n], NameKeys)
    {
      IndexStep(shells, n, WebsiteKeys);
      IndexStep(shells, n, NameKeys);
      websiteBuckets := AddToWebsiteBuckets(websiteBuckets, shells[n]);
      nameBuckets := AddToNameBuckets(nameBuckets, shells[n]);
    }
    assert shells[..|shells|] == shells;
  }

  // ---------------------------------------------------------------------------
  // The fast filter

  /** The Ids in the customer's website bucket. */
  function WebsiteHits(c: Customer, websiteBuckets: Buckets): set<string> {
    match WebsiteToken(c.website)
    case None => {}
    case Some(k) => IdsOf(Lookup(websiteBuckets, k))
  }

  /** The Ids in the buckets of the given keys. */
  function HitsOf(bs: Buckets, ks: seq<string>): set<string> {
    if ks == [] then {}
    else HitsOf(bs, ks[..|ks| - 1]) + IdsOf(Lookup(bs, ks[|ks| - 1]))
  }

  /** The candidate Id set: the website hits, and the name hits too when the
      customer has a name and there are fewer than 10 website hits. */
  function CandidateIds(c: Customer, websiteBuckets: Buckets, nameBuckets: Buckets): set<string> {
    var hits := WebsiteHits(c, websiteBuckets);
    if c.name != [] && |hits| < 10 then hits + HitsOf(nameBuckets, NameTokens(c.name)) else hits
  }

  /** The first shell of each Id in ids, in the order of xs. */
  function FirstOfEachId(xs: seq<Shell>, ids: set<string>): seq<Shell> {
    if xs == [] then []
    else
      var r, last := FirstOfEachId(xs[..|xs| - 1], ids), xs[|xs| - 1];
      if last.id in ids && last.id !in IdsOf(r) then r + [last] else r
  }

  predicate DistinctIds(xs: seq<Shell>) {
    forall i, j :: 0 <= i < j < |xs| ==> xs[i].id != xs[j].id
  }

  /** The selection has distinct Ids, draws only from xs and covers exactly
      the Ids of xs that are in ids. */
  lemma {:induction false} FirstOfEachIdSpec(xs: seq<Shell>, ids: set<string>)
    ensures DistinctIds(FirstOfEachId(xs, ids))
    ensures forall x :: x in FirstOfEachId(xs, ids) ==> x in xs
    ensures IdsOf(FirstOfEachId(xs, ids)) == ids * IdsOf(xs)
  {
    if xs != [] {
      var init, last := xs[..|xs| - 1], xs[|xs| - 1];
      FirstOfEachIdSpec(init, ids);
      var r := FirstOfEachId(init, ids);
      assert xs == init + [last];
      assert IdsOf(xs) == IdsOf(init) + {last.id};
      if last.id in ids && last.id !in IdsOf(r) {
        assert IdsOf(r + [last]) == IdsOf(r) + {last.id};
        forall i | 0 <= i < |r| ensures r[i].id != last.id {
          assert r[i].id in IdsOf(r);
        }
      }
    }
  }

  /** What fast_filter_candidates returns. */
  function Filtered(c: Customer, websiteBuckets: Buckets, nameBuckets: Buckets): seq<Shell> {
    FirstOfEachId(Flatten(websiteBuckets) + Flatten(nameBuckets), CandidateIds(c, websiteBuckets, nameBuckets))
  }

  lemma {:induction false} HitsInFlatten(bs: Buckets, ks: seq<string>)
    ensures HitsOf(bs, ks) <= IdsOf(Flatten(bs))
  {
    if ks != [] {
      HitsInFlatten(bs, ks[..|ks| - 1]);
      LookupInFlatten(bs, ks[|ks| - 1]);
      IdsOfSubset(Lookup(bs, ks[|ks| - 1]), Flatten(bs));
    }
  }

  lemma IdsOfAppend(a: seq<Shell>, b: seq<Shell>)
    ensures IdsOf(a + b) == IdsOf(a) + IdsOf(b)
  {
  }

  lemma IdsOfSubset(a: seq<Shell>, b: seq<Shell>)
    requires forall x :: x in a ==> x in b
    ensures IdsOf(a) <= IdsOf(b)
  {
  }

  lemma WebsiteHitsInTable(c: Customer, websiteBuckets: Buckets)
    ensures WebsiteHits(c, websiteBuckets) <= IdsOf(Flatten(websiteBuckets))
  {
    match WebsiteToken(c.website)
    case None =>
    case Some(k) =>
      LookupInFlatten(websiteBuckets, k);
      IdsOfSubset(Lookup(websiteBuckets, k), Flatten(websiteBuckets));
  }

  /** The candidate Ids all occur in the tables. */
  lemma CandidateIdsInTables(c: Customer, websiteBuckets: Buckets, nameBuckets: Buckets)
    ensures CandidateIds(c, websiteBuckets, nameBuckets) <= IdsOf(Flatten(websiteBuckets) + Flatten(nameBuckets))
  {
    IdsOfAppend(Flatten(websiteBuckets), Flatten(nameBuckets));
    WebsiteHitsInTable(c, websiteBuckets);
    HitsInFlatten(nameBuckets, NameTokens(c.name));
  }

  /** The candidates have pairwise-distinct Ids, and their Id set is exactly
      the candidate Id set: website hits, plus name hits below the threshold. */
  lemma FilteredSpec(c: Customer, websiteBuckets: Buckets, nameBuckets: Buckets)
    ensures DistinctIds(Filtered(c, websiteBuckets, nameBuckets))
    ensures IdsOf(Filtered(c, websiteBuckets, nameBuckets)) == CandidateIds(c, websiteBuckets, nameBuckets)
  {
    CandidateIdsInTables(c, websiteBuckets, nameBuckets);
    FirstOfEachIdSpec(Flatten(websiteBuckets) + Flatten(nameBuckets), CandidateIds(c, websiteBuckets, nameBuckets));
  }

  /** Name lookup only runs below the threshold: with ten or more website hits
      the candidates are exactly the website hits. */
  lemma FilteredThreshold(c: Customer, websiteBuckets: Buckets, nameBuckets: Buckets)
    requires |WebsiteHits(c, websiteBuckets)| >= 10
    ensures IdsOf(Filtered(c, websiteBuckets, nameBuckets)) == WebsiteHits(c, websiteBuckets)
  {
    FilteredSpec(c, websiteBuckets, nameBuckets);
  }

  /** Built from the index of shells, every candidate is one of the shells. */
  lemma FilteredFromShells(c: Customer, shells: seq<Shell>)
    ensures forall x :: x in Filtered(c, WebsiteIndex(shells), NameIndex(shells)) ==> x in shells
  {
    var w, n := WebsiteIndex(shells), NameIndex(shells);
    FirstOfEachIdSpec(Flatten(w) + Flatten(n), CandidateIds(c, w, n));
    forall x | x in Flatten(w) + Flatten(n) ensures x in shells {
      if x in Flatten(w) {
        FlattenMembers(w, x);
        var i :| 0 <= i < |w| && x in w[i].members;
        IndexSound(shells, WebsiteKeys, i, x);
      } else {
        FlattenMembers(n, x);
        var i :| 0 <= i < |n| && x in n[i].members;
        IndexSound(shells, NameKeys, i, x);
      }
    }
  }

  /** Adds the Ids of a bucket's shells to a set. */
  method AddIds(ids: set<string>, bucket: seq<Shell>) returns (r: set<string>)
    ensures r == ids + IdsOf(bucket)
  {
    r := ids;
    for i := 0 to |bucket|
      invariant r == ids + IdsOf(bucket[..i])
    {
      assert bucket[..i + 1] == bucket[..i] + [bucket[i]];
      r := r + {bucket[i].id};
    }
    assert bucket[..|bucket|] == bucket;
  }

  /** Step 1 of fast_filter_candidates: the customer's website bucket. */
  method CollectWebsiteHits(c: Customer, websiteBuckets: Buckets) returns (candidates: set<string>)
    ensures candidates == WebsiteHits(c, websiteBuckets)
  {
    candidates := {};
    if c.website != [] {
      var domain := ExtractDomain(c.website);
      if domain.Some? && domain.value != [] {
        var company := CompanyToken(domain.value);
        if company.Some? && company.value in Keys(websiteBuckets) {
          candidates := AddIds(candidates, Lookup(websiteBuckets, company.value));
        }
      }
    }
  }

  /** The token loop of step 2: the hits of every token longer than two characters. */
  method CollectLongTokenHits(nameBuckets: Buckets, tokens: seq<string>, hits: set<string>) returns (candidates: set<string>)
    ensures candidates == hits + HitsOf(nameBuckets, LongTokens(tokens))
  {
    candidates := hits;
    for t := 0 to |tokens|
      invariant candidates == hits + HitsOf(nameBuckets, LongTokens(tokens[..t]))
    {
      assert tokens[..t + 1][..t] == tokens[..t];
      var ks := LongTokens(tokens[..t]);
      var token := tokens[t];
      if |token| > 2 {
        assert LongTokens(tokens[..t + 1]) == ks + [token];
        assert (ks + [token])[..|ks|] == ks;
        if token in Keys(nameBuckets) {
          candidates := AddIds(candidates, Lookup(nameBuckets, token));
        }
      } else {
        assert LongTokens(tokens[..t + 1]) == ks;
      }
    }
    assert tokens[..|tokens|] == tokens;
  }

  /** Step 2 of fast_filter_candidates: the name buckets of the customer's tokens. */
  method CollectNameHits(c: Customer, nameBuckets: Buckets, hits: set<string>) returns (candidates: set<string>)
    requires c.name != []
    ensures candidates == hits + HitsOf(nameBuckets, NameTokens(c.name))
  {
    candidates := hits;
    var normalized := NormalizeCompanyName(c.name);
    if normalized != [] {
      candidates := CollectLongTokenHits(nameBuckets, Words(normalized), hits);
    } else {
      assert Words(normalized) == [];
    }
  }

  /** Appends every bucket's list to acc, in key order. */
  method ExtendAll(acc: seq<Shell>, bs: Buckets) returns (r: seq<Shell>)
    ensures r == acc + Flatten(bs)
  {
    r := acc;
    for i := 0 to |bs|
      invariant r + Flatten(bs[i..]) == acc + Flatten(bs)
    {
      assert bs[i..][1..] == bs[i + 1..];
      r := r + bs[i].members;
    }
    assert bs[|bs|..] == [];
  }

  /** The deduplication loop of fast_filter_candidates. */
  method KeepFirstOfEachId(allShells: seq<Shell>, candidates: set<string>) returns (candidateShells: seq<Shell>)
    ensures candidateShells == FirstOfEachId(allShells, candidates)
  {
    candidateShells := [];
    var seenIds: set<string> := {};
    for i := 0 to |allShells|
      invariant candidateShells == FirstOfEachId(allShells[..i], candidates)
      invariant seenIds == IdsOf(candidateShells)
    {
      assert allShells[..i + 1][..i] == allShells[..i];
      var shell := allShells[i];
      if shell.id in candidates && shell.id !in seenIds {
        candidateShells := candidateShells + [shell];
        seenIds := seenIds + {shell.id};
      }
    }
    assert allShells[..|allShells|] == allShells;
  }

  /** fast_filter_candidates. */
  method FastFilterCandidates(c: Customer, websiteBuckets: Buckets, nameBuckets: Buckets) returns (candidateShells: seq<Shell>)
    ensures candidateShells == Filtered(c, websiteBuckets, nameBuckets)
  {
    var candidates := CollectWebsiteHits(c, websiteBuckets);
    if c.name != [] && |candidates| < 10 {
      candidates := CollectNameHits(c, nameBuckets, candidates);
    }
    assert candidates == CandidateIds(c, websiteBuckets, nameBuckets);
    var allShells := ExtendAll([], websiteBuckets);
    assert allShells == Flatten(websiteBuckets);
    allShells := ExtendAll(allShells, nameBuckets);
    candidateShells := KeepFirstOfEachId(allShells, candidates);
  }
}
