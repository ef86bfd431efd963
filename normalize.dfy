/**
 * Text normalisation of the fuzzy matching service: URL to domain, domain to
 * company token, and company-name normalisation with legal-suffix removal.
 * Each is given as a specification function and as the loop the service runs.
 */
module Normalize {
  import opened Ascii
  import opened Options

  const DomainPrefixes: seq<string> := ["www.", "app.", "portal.", "my.", "secure.", "admin."]
  const DomainSuffixes: seq<string> := [".com", ".org", ".net", ".edu", ".gov", ".co", ".io", ".ai"]
  const BusinessSuffixes: seq<string> :=
    ["inc", "incorporated", "corp", "corporation", "ltd", "limited",
     "llc", "llp", "company", "co", "group", "holdings", "enterprises"]

  predicate IsSeparator(c: char) { c == ' ' || c == '.' || c == ',' || c == '-' }

  /** The four spellings of a legal suffix word that are removed: " w", ".w", ",w" and "-w". */
  function SuffixPatterns(w: string): (ps: seq<string>)
    ensures |ps| == 4
    ensures forall k :: 0 <= k < 4 ==> |ps[k]| == |w| + 1 && IsSeparator(ps[k][0]) && ps[k][1..] == w
  {
    [" " + w, "." + w, "," + w, "-" + w]
  }

  /** s without the first of ps that it starts with; s itself when none does. */
  function StripFirstPrefix(s: string, ps: seq<string>): (r: string)
    ensures |r| <= |s| && r == s[|s| - |r|..]
  {
    if ps == [] then s
    else if StartsWith(s, ps[0]) then s[|ps[0]|..]
    else StripFirstPrefix(s, ps[1..])
  }

  /** s without the first of ps that it ends with; s itself when none does. */
  function StripFirstSuffix(s: string, ps: seq<string>): (r: string)
    ensures |r| <= |s| && r == s[..|r|]
  {
    if ps == [] then s
    else if EndsWith(s, ps[0]) then s[..|s| - |ps[0]|]
    else StripFirstSuffix(s, ps[1..])
  }

  /** Only the first prefix in list order that matches is removed. */
  lemma {:induction false} StripFirstPrefixAt(s: string, ps: seq<string>, k: nat)
    requires k < |ps| && StartsWith(s, ps[k])
    requires forall k' :: 0 <= k' < k ==> !StartsWith(s, ps[k'])
    ensures StripFirstPrefix(s, ps) == s[|ps[k]|..]
  {
    if k > 0 {
      assert !StartsWith(s, ps[0]);
      assert ps[1..][k - 1] == ps[k];
      StripFirstPrefixAt(s, ps[1..], k - 1);
    }
  }

  lemma {:induction false} StripFirstPrefixNone(s: string, ps: seq<string>)
    requires forall k :: 0 <= k < |ps| ==> !StartsWith(s, ps[k])
    ensures StripFirstPrefix(s, ps) == s
  {
    if ps != [] {
      assert !StartsWith(s, ps[0]);
      StripFirstPrefixNone(s, ps[1..]);
    }
  }

  /** Only the first suffix in list order that matches is removed. */
  lemma {:induction false} StripFirstSuffixAt(s: string, ps: seq<string>, k: nat)
    requires k < |ps| && EndsWith(s, ps[k])
    requires forall k' :: 0 <= k' < k ==> !EndsWith(s, ps[k'])
    ensures StripFirstSuffix(s, ps) == s[..|s| - |ps[k]|]
  {
    if k > 0 {
      assert !EndsWith(s, ps[0]);
      assert ps[1..][k - 1] == ps[k];
      StripFirstSuffixAt(s, ps[1..], k - 1);
    }
  }

  lemma {:induction false} StripFirstSuffixNone(s: string, ps: seq<string>)
    requires forall k :: 0 <= k < |ps| ==> !EndsWith(s, ps[k])
    ensures StripFirstSuffix(s, ps) == s
  {
    if ps != [] {
      assert !EndsWith(s, ps[0]);
      StripFirstSuffixNone(s, ps[1..]);
    }
  }

  /** Ends a network location. */
  predicate IsNetlocEnd(c: char) { c == '/' || c == '?' || c == '#' }

  /** The network location of what follows "scheme://": everything up to the
      first '/', '?' or '#'. */
  function Netloc(s: string): (h: string)
    ensures |h| <= |s| && h == s[..|h|]
    ensures forall i :: 0 <= i < |h| ==> !IsNetlocEnd(h[i])
    ensures |h| == |s| || IsNetlocEnd(s[|h|])
  {
    if s == [] || IsNetlocEnd(s[0]) then [] else [s[0]] + Netloc(s[1..])
  }

  /** The URL with "https://" prepended unless it already starts with
      "http://" or "https://" (a case-sensitive test). */
  function WithScheme(url: string): (u: string)
    ensures StartsWith(u, "http://") || StartsWith(u, "https://")
  {
    if StartsWith(url, "http://") || StartsWith(url, "https://") then url else "https://" + url
  }

  /** Characters urlsplit deletes wherever they occur before it splits a URL. */
  predicate IsUnsafeUrlChar(c: char) { c == '\t' || c == '\r' || c == '\n' }

  /** s without its tabs, carriage returns and line feeds, in order. */
  function RemoveUnsafe(s: string): (r: string)
    ensures |r| <= |s|
    ensures forall i :: 0 <= i < |r| ==> !IsUnsafeUrlChar(r[i])
    ensures (forall i :: 0 <= i < |s| ==> !IsUnsafeUrlChar(s[i])) ==> r == s
  {
    if s == [] then []
    else if IsUnsafeUrlChar(s[0]) then RemoveUnsafe(s[1..])
    else [s[0]] + RemoveUnsafe(s[1..])
  }

  /** The host part of a URL, as urlparse's netloc: the scheme prefix never
      holds a character urlsplit deletes, so deleting them from what follows
      it is deleting them from the whole URL. The leading control characters
      and spaces urlsplit also strips cannot occur, as the URL starts with
      "http". */
  function Host(url: string): string
  {
    var u := WithScheme(url);
    Netloc(RemoveUnsafe(if StartsWith(u, "http://") then u[7..] else u[8..]))
  }

  /** extract_domain_from_url: None for an empty URL, otherwise the lower-cased
      host without its first listed prefix. */
  function DomainOf(url: string): (r: Option<string>)
    ensures r.None? <==> url == []
    ensures r.Some? ==> forall i :: 0 <= i < |r.value| ==> !IsUpper(r.value[i]) && !IsNetlocEnd(r.value[i])
  {
    if url == [] then None
    else
      var h := Lower(Host(url));
      var d := StripFirstPrefix(h, DomainPrefixes);
      assert forall i :: 0 <= i < |d| ==> d[i] == h[|h| - |d| + i];
      Some(d)
  }

  /** The ASCII letters and digits of s, in order (re.sub(r'[^a-zA-Z0-9]', '', s)). */
  function AlnumOnly(s: string): (r: string)
    ensures |r| <= |s| && AllAlnum(r)
  {
    if s == [] then []
    else if IsAlnum(s[0]) then [s[0]] + AlnumOnly(s[1..])
    else AlnumOnly(s[1..])
  }

  /** extract_company_name_from_domain: the domain without its first listed
      TLD, reduced to letters and digits and lower-cased; None when empty. */
  function TokenOf(domain: string): (r: Option<string>)
    ensures r.Some? ==> r.value != [] && AllTokenChars(r.value)
    ensures domain == [] ==> r.None?
  {
    if domain == [] then None
    else
      var t := Lower(AlnumOnly(StripFirstSuffix(domain, DomainSuffixes)));
      if t == [] then None else Some(t)
  }

  /** The hash key of a website: its company token, when one can be extracted. */
  function WebsiteToken(url: string): (r: Option<string>)
    ensures r.Some? ==> r.value != [] && AllTokenChars(r.value)
    ensures url == [] ==> r.None?
  {
    match DomainOf(url)
    case None => None
    case Some(d) => TokenOf(d)
  }

  /** The legal-suffix pass: for each word in order, at most one of its four
      spellings is removed from the end. */
  function StripLegal(s: string, words: seq<string>): (r: string)
    ensures |r| <= |s| && r == s[..|r|]
    decreases |words|
  {
    if words == [] then s
    else
      var t := StripFirstSuffix(s, SuffixPatterns(words[0]));
      var r := StripLegal(t, words[1..]);
      assert s[..|r|] == t[..|r|];
      r
  }

  /** re.sub(r'[^a-zA-Z0-9\s]', ' ', s). */
  function Denoise(s: string): (r: string)
    ensures |r| == |s|
    ensures forall i :: 0 <= i < |s| ==> r[i] == (if IsAlnum(s[i]) || IsSpace(s[i]) then s[i] else ' ')
  {
    seq(|s|, i requires 0 <= i < |s| => if IsAlnum(s[i]) || IsSpace(s[i]) then s[i] else ' ')
  }

  /** normalize_company_name. */
  function Normalized(name: string): (r: string)
    ensures name == [] ==> r == []
    ensures SingleSpaced(r)
  {
    if name == [] then []
    else
      var low := Lower(name);
      var stripped := StripLegal(low, BusinessSuffixes);
      var clean := Denoise(stripped);
      assert forall i :: 0 <= i < |clean| ==> IsSpace(clean[i]) || IsTokenChar(clean[i]) by {
        forall i | 0 <= i < |clean| ensures IsSpace(clean[i]) || IsTokenChar(clean[i]) {
          assert stripped[i] == low[i];
        }
      }
      WordsOfTokenText(clean);
      JoinTokensSingleSpaced(Words(clean));
      Join(" ", Words(clean))
  }

  /** No suffix pattern can end a string of letters and digits, since every
      pattern begins with a separator. */
  lemma StripLegalTokens(s: string, words: seq<string>)
    requires AllTokenChars(s)
    ensures StripLegal(s, words) == s
    decreases |words|
  {
    if words != [] {
      var ps := SuffixPatterns(words[0]);
      forall k | 0 <= k < |ps| ensures !EndsWith(s, ps[k]) {
      }
      StripFirstSuffixNone(s, ps);
      StripLegalTokens(s, words[1..]);
    }
  }

  /** A non-empty string of lower-case letters and digits is its own
      normalisation. */
  lemma NormalizedToken(s: string)
    requires s != [] && AllTokenChars(s)
    ensures Normalized(s) == s
  {
    TokenCharStages(s);
    StripLegalTokens(s, BusinessSuffixes);
    TokenWordStages(s);
    NormalizedVia(s, s, s, [s]);
  }

  /** Lower-casing and de-noising leave a token unchanged. */
  lemma TokenCharStages(s: string)
    requires AllTokenChars(s)
    ensures Lower(s) == s && Denoise(s) == s
  {
    assert Lower(s) == s by { LowerKeeps(s); }
    assert Denoise(s) == s by { DenoiseKeeps(s); }
  }

  /** A token is one word, and joining that one word gives the token back. */
  lemma TokenWordStages(s: string)
    requires s != [] && AllTokenChars(s)
    ensures Words(s) == [s] && Join(" ", [s]) == s
  {
    WordsOfWord(s);
  }

  /** Neither the position before a word's length nor its last character fits a pattern. */
  predicate CannotEndWith(s: string, w: string) {
    w != [] && (|s| <= |w| || !IsSeparator(s[|s| - |w| - 1]) || s[|s| - 1] != w[|w| - 1])
  }

  lemma NoPatternEnds(s: string, w: string)
    requires CannotEndWith(s, w)
    ensures forall k :: 0 <= k < 4 ==> !EndsWith(s, SuffixPatterns(w)[k])
  {
    forall k | 0 <= k < 4 ensures !EndsWith(s, SuffixPatterns(w)[k]) {
    }
  }

  predicate NoneCanEnd(s: string, words: seq<string>)
    decreases |words|
  {
    words == [] || (CannotEndWith(s, words[0]) && NoneCanEnd(s, words[1..]))
  }

  lemma {:induction false} NoneCanEndEach(s: string, words: seq<string>)
    requires forall k :: 0 <= k < |words| ==> CannotEndWith(s, words[k])
    ensures NoneCanEnd(s, words)
    decreases |words|
  {
    if words != [] {
      assert CannotEndWith(s, words[0]);
      assert forall k :: 0 <= k < |words| - 1 ==> words[1..][k] == words[k + 1];
      NoneCanEndEach(s, words[1..]);
    }
  }

  /** StripLegal leaves s alone when no word's pattern can end it. */
  lemma {:induction false} StripLegalSkip(s: string, words: seq<string>)
    requires NoneCanEnd(s, words)
    ensures StripLegal(s, words) == s
    decreases |words|
  {
    if words != [] {
      NoPatternEnds(s, words[0]);
      StripFirstSuffixNone(s, SuffixPatterns(words[0]));
      StripLegalSkip(s, words[1..]);
    }
  }

  lemma {:induction false} StripLegalAppend(s: string, a: seq<string>, b: seq<string>)
    ensures StripLegal(s, a + b) == StripLegal(StripLegal(s, a), b)
    decreases |a|
  {
    if a != [] {
      assert (a + b)[0] == a[0] && (a + b)[1..] == a[1..] + b;
      StripLegalAppend(StripFirstSuffix(s, SuffixPatterns(a[0])), a[1..], b);
    } else {
      assert a + b == b;
    }
  }

  /** Removes the pattern " w" from s when s ends with it and the word is
      tried before any other that could match. */
  lemma StripLegalSpace(s: string, w: string, rest: seq<string>)
    requires w != [] && EndsWith(s, " " + w)
    ensures StripLegal(s, [w] + rest) == StripLegal(s[..|s| - |w| - 1], rest)
  {
    StripFirstSuffixAt(s, SuffixPatterns(w), 0);
    assert ([w] + rest)[1..] == rest;
  }

  // Tails of BusinessSuffixes named for the worked examples below.
  const AfterInc: seq<string> :=
    ["incorporated", "corp", "corporation", "ltd", "limited", "llc", "llp",
     "company", "co", "group", "holdings", "enterprises"]
  const AfterCorp: seq<string> :=
    ["corporation", "ltd", "limited", "llc", "llp", "company", "co", "group", "holdings", "enterprises"]
  const BeforeCo: seq<string> :=
    ["inc", "incorporated", "corp", "corporation", "ltd", "limited", "llc", "llp", "company"]
  const AfterCo: seq<string> := ["group", "holdings", "enterprises"]

  lemma SuffixListSplits()
    ensures BusinessSuffixes == ["inc"] + AfterInc
    ensures AfterInc == ["incorporated"] + (["corp"] + AfterCorp)
    ensures BusinessSuffixes == BeforeCo + (["co"] + AfterCo)
  {
  }

  lemma StripLegalFooIncCo()
    ensures StripLegal("foo inc co", BusinessSuffixes) == "foo inc"
  {
    StripLegalBeforeCo();
    StripLegalCo();
  }

  lemma StripLegalBeforeCo()
    ensures StripLegal("foo inc co", BusinessSuffixes) == StripLegal("foo inc co", ["co"] + AfterCo)
  {
    SuffixListSplits();
    StripLegalAppend("foo inc co", BeforeCo, ["co"] + AfterCo);
    SkipBeforeCo();
  }

  lemma SkipBeforeCo()
    ensures StripLegal("foo inc co", BeforeCo) == "foo inc co"
  {
    forall k | 0 <= k < |BeforeCo| ensures CannotEndWith("foo inc co", BeforeCo[k]) {
    }
    NoneCanEndEach("foo inc co", BeforeCo);
    StripLegalSkip("foo inc co", BeforeCo);
  }

  lemma StripLegalCo()
    ensures StripLegal("foo inc co", ["co"] + AfterCo) == "foo inc"
  {
    StripLegalSpace("foo inc co", "co", AfterCo);
    assert "foo inc co"[..7] == "foo inc";
    StripLegalSkip("foo inc", AfterCo);
  }

  lemma StripLegalFooInc()
    ensures StripLegal("foo inc", BusinessSuffixes) == "foo"
  {
    StripLegalInc("foo inc", "foo");
    SkipAfterInc();
  }

  lemma SkipAfterInc()
    ensures StripLegal("foo", AfterInc) == "foo"
  {
    forall k | 0 <= k < |AfterInc| ensures CannotEndWith("foo", AfterInc[k]) {
    }
    NoneCanEndEach("foo", AfterInc);
    StripLegalSkip("foo", AfterInc);
  }

  /** Removing " inc", the first suffix tried. */
  lemma StripLegalInc(s: string, t: string)
    requires s == t + " inc"
    ensures StripLegal(s, BusinessSuffixes) == StripLegal(t, AfterInc)
  {
    SuffixListSplits();
    StripLegalSpace(s, "inc", AfterInc);
    assert s[..|t|] == t;
  }

  lemma StripLegalAcmeCorpInc()
    ensures StripLegal("acme corp inc", BusinessSuffixes) == "acme"
  {
    StripLegalInc("acme corp inc", "acme corp");
    StripLegalCorp();
  }

  lemma StripLegalCorp()
    ensures StripLegal("acme corp", AfterInc) == "acme"
  {
    SuffixListSplits();
    StripLegalAppend("acme corp", ["incorporated"], ["corp"] + AfterCorp);
    SkipIncorporated();
    StripLegalCorpStep();
    SkipAfterCorp();
  }

  lemma SkipIncorporated()
    ensures StripLegal("acme corp", ["incorporated"]) == "acme corp"
  {
    StripLegalSkip("acme corp", ["incorporated"]);
  }

  lemma SkipAfterCorp()
    ensures StripLegal("acme", AfterCorp) == "acme"
  {
    forall k | 0 <= k < |AfterCorp| ensures CannotEndWith("acme", AfterCorp[k]) {
    }
    NoneCanEndEach("acme", AfterCorp);
    StripLegalSkip("acme", AfterCorp);
  }

  lemma StripLegalCorpStep()
    ensures StripLegal("acme corp", ["corp"] + AfterCorp) == StripLegal("acme", AfterCorp)
  {
    StripLegalSpace("acme corp", "corp", AfterCorp);
    assert "acme corp"[..4] == "acme";
  }

  /** Two words joined by one space split back into the two words. */
  lemma WordsOfTwo(a: string, b: string)
    requires a != [] && b != [] && NoSpace(a) && NoSpace(b)
    ensures Words(a + " " + b) == [a] + [b]
  {
    WordsFirst(a, b);
    WordsOfSpaceWord(b);
  }

  lemma WordsOfSpaceWord(b: string)
    requires b != [] && NoSpace(b)
    ensures Words(" " + b) == [b]
  {
    WordsAfterSpace(b);
    WordsOfWord(b);
  }

  /** Normalized, one stage at a time. */
  lemma NormalizedVia(name: string, low: string, stripped: string, ws: seq<string>)
    requires name != [] && Lower(name) == low && StripLegal(low, BusinessSuffixes) == stripped
    requires Denoise(stripped) == stripped && Words(stripped) == ws
    ensures Normalized(name) == Join(" ", ws)
  {
  }

  lemma DenoiseKeeps(s: string)
    requires forall i :: 0 <= i < |s| ==> IsAlnum(s[i]) || IsSpace(s[i])
    ensures Denoise(s) == s
  {
  }

  // The stages of the worked examples, each proved on its own.

  lemma LowerExamples()
    ensures Lower("Acme Corp Inc") == "acme corp inc"
    ensures Lower("foo inc co") == "foo inc co"
    ensures Lower("foo inc") == "foo inc"
  {
    LowerKeeps("foo inc co");
    LowerKeeps("foo inc");
  }

  lemma DenoiseExamples()
    ensures Denoise("acme") == "acme"
    ensures Denoise("foo inc") == "foo inc"
    ensures Denoise("foo") == "foo"
  {
    DenoiseKeeps("acme");
    DenoiseKeeps("foo inc");
    DenoiseKeeps("foo");
  }

  lemma WordsAcme()
    ensures Words("acme") == ["acme"]
  {
    WordsOfWord("acme");
  }

  lemma WordsFoo()
    ensures Words("foo") == ["foo"]
  {
    WordsOfWord("foo");
  }

  lemma WordsFooInc()
    ensures Words("foo inc") == ["foo"] + ["inc"]
  {
    assert "foo inc" == "foo" + " " + "inc";
    WordsOfTwo("foo", "inc");
  }

  lemma JoinExamples()
    ensures Join(" ", ["acme"]) == "acme"
    ensures Join(" ", ["foo"]) == "foo"
    ensures Join(" ", ["foo"] + ["inc"]) == "foo inc"
  {
    assert (["foo"] + ["inc"])[1..] == ["inc"];
  }

  /** "Acme Corp Inc" loses both legal suffixes, because "inc" is tried before "corp". */
  lemma NormalizedTwoSuffixes()
    ensures Normalized("Acme Corp Inc") == "acme"
  {
    LowerExamples();
    StripLegalAcmeCorpInc();
    DenoiseExamples();
    WordsAcme();
    JoinExamples();
    NormalizedVia("Acme Corp Inc", "acme corp inc", "acme", ["acme"]);
  }

  lemma NormalizedFooIncCo()
    ensures Normalized("foo inc co") == "foo inc"
  {
    LowerExamples();
    StripLegalFooIncCo();
    DenoiseExamples();
    WordsFooInc();
    JoinExamples();
    NormalizedVia("foo inc co", "foo inc co", "foo inc", ["foo"] + ["inc"]);
  }

  lemma NormalizedFooInc()
    ensures Normalized("foo inc") == "foo"
  {
    LowerExamples();
    StripLegalFooInc();
    DenoiseExamples();
    WordsFoo();
    JoinExamples();
    NormalizedVia("foo inc", "foo inc", "foo", ["foo"]);
  }

  /** Normalisation is not idempotent: a second pass can remove a suffix that
      the first pass had already walked past. */
  lemma NormalizedNotIdempotent()
    ensures Normalized(Normalized("foo inc co")) != Normalized("foo inc co")
  {
    NormalizedFooIncCo();
    NormalizedFooInc();
  }

  lemma {:induction false} NetlocWhole(s: string)
    requires forall i :: 0 <= i < |s| ==> !IsNetlocEnd(s[i])
    ensures Netloc(s) == s
  {
    if s != [] {
      NetlocWhole(s[1..]);
    }
  }

  /** Deleting tabs, carriage returns and line feeds works piece by piece. */
  lemma {:induction false} RemoveUnsafeAppend(a: string, b: string)
    ensures RemoveUnsafe(a + b) == RemoveUnsafe(a) + RemoveUnsafe(b)
  {
    if a == [] {
      assert a + b == b;
    } else {
      var ab := a + b;
      assert ab[0] == a[0];
      assert ab[1..] == a[1..] + b;
      RemoveUnsafeAppend(a[1..], b);
      if IsUnsafeUrlChar(a[0]) {
        assert RemoveUnsafe(ab) == RemoveUnsafe(a[1..] + b);
      } else {
        assert RemoveUnsafe(ab) == [a[0]] + RemoveUnsafe(a[1..] + b);
        assert RemoveUnsafe(a) == [a[0]] + RemoveUnsafe(a[1..]);
      }
    }
  }

  /** The host of an "https://" URL is the network location of the rest,
      once tabs, carriage returns and line feeds are deleted. */
  lemma HostOfHttps(rest: string)
    ensures Host("https://" + rest) == Netloc(RemoveUnsafe(rest))
  {
    var u := "https://" + rest;
    assert u[..8] == "https://";
    assert WithScheme(u) == u;
    assert u[4] == 's';
    assert !StartsWith(u, "http://");
    assert u[8..] == rest;
  }

  /** The host of "https://" followed by a plain host name is that name. */
  lemma HostOfPlain(rest: string)
    requires forall i :: 0 <= i < |rest| ==> !IsUnsafeUrlChar(rest[i]) && !IsNetlocEnd(rest[i])
    ensures Host("https://" + rest) == rest
  {
    HostOfHttps(rest);
    NetlocWhole(rest);
  }

  /** Tabs, carriage returns and line feeds after a host name do not reach the host. */
  lemma HostDropsUnsafe(rest: string, tail: string)
    requires forall i :: 0 <= i < |rest| ==> !IsUnsafeUrlChar(rest[i]) && !IsNetlocEnd(rest[i])
    requires RemoveUnsafe(tail) == []
    ensures Host("https://" + (rest + tail)) == rest
  {
    HostOfHttps(rest + tail);
    RemoveUnsafeAppend(rest, tail);
    assert RemoveUnsafe(rest + tail) == rest;
    NetlocWhole(rest);
  }

  /** A line feed pasted after a website does not reach the host. */
  lemma HostIgnoresNewline()
    ensures Host("https://acme.io\n") == "acme.io"
  {
    var r := "acme.io";
    assert "https://acme.io\n" == "https://" + (r + "\n");
    assert forall i :: 0 <= i < |r| ==> !IsUnsafeUrlChar(r[i]) && !IsNetlocEnd(r[i]);
    assert RemoveUnsafe("\n") == [];
    HostDropsUnsafe(r, "\n");
  }

  /** The filter works piece by piece: with AlnumOnlyAlnum and AlnumOnlyDrops
      it keeps exactly the letters and digits, in order. */
  lemma {:induction false} AlnumOnlyAppend(a: string, b: string)
    ensures AlnumOnly(a + b) == AlnumOnly(a) + AlnumOnly(b)
  {
    if a == [] {
      assert a + b == b;
    } else {
      var ab := a + b;
      assert ab[0] == a[0];
      assert ab[1..] == a[1..] + b;
      AlnumOnlyAppend(a[1..], b);
      if !IsAlnum(a[0]) {
        assert AlnumOnly(ab) == AlnumOnly(a[1..] + b);
      } else {
        assert AlnumOnly(ab) == [a[0]] + AlnumOnly(a[1..] + b);
        assert AlnumOnly(a) == [a[0]] + AlnumOnly(a[1..]);
      }
    }
  }

  /** A string without letters or digits filters to nothing. */
  lemma {:induction false} AlnumOnlyDrops(s: string)
    requires forall i :: 0 <= i < |s| ==> !IsAlnum(s[i])
    ensures AlnumOnly(s) == []
  {
    if s != [] {
      AlnumOnlyDrops(s[1..]);
    }
  }

  lemma {:induction false} AlnumOnlyAlnum(s: string)
    requires AllAlnum(s)
    ensures AlnumOnly(s) == s
  {
    if s != [] {
      AlnumOnlyAlnum(s[1..]);
    }
  }

  lemma HostExample1()
    ensures Host("https://www.acme.com") == "www.acme.com"
  {
    var r := "www.acme.com";
    assert "https://www.acme.com" == "https://" + r;
    assert forall i :: 0 <= i < |r| ==> !IsUnsafeUrlChar(r[i]) && !IsNetlocEnd(r[i]);
    HostOfPlain(r);
  }

  /** DomainOf, one stage at a time. */
  lemma DomainVia(url: string, host: string, d: string)
    requires url != [] && Host(url) == host && Lower(host) == host
    requires StripFirstPrefix(host, DomainPrefixes) == d
    ensures DomainOf(url) == Some(d)
  {
  }

  /** TokenOf, when the domain without its TLD is already a token. */
  lemma TokenVia(domain: string, t: string)
    requires domain != [] && StripFirstSuffix(domain, DomainSuffixes) == t
    requires t != [] && AllTokenChars(t)
    ensures TokenOf(domain) == Some(t)
  {
    AlnumOnlyAlnum(t);
    LowerKeeps(t);
  }

  lemma LowerExample1()
    ensures Lower("www.acme.com") == "www.acme.com"
  {
    LowerKeeps("www.acme.com");
  }

  lemma LowerExample2()
    ensures Lower("acme.io") == "acme.io"
  {
    LowerKeeps("acme.io");
  }

  lemma PrefixExample1()
    ensures StripFirstPrefix("www.acme.com", DomainPrefixes) == "acme.com"
  {
    assert StartsWith("www.acme.com", DomainPrefixes[0]);
    StripFirstPrefixAt("www.acme.com", DomainPrefixes, 0);
    assert "www.acme.com"[4..] == "acme.com";
  }

  lemma DomainExample1()
    ensures DomainOf("https://www.acme.com") == Some("acme.com")
  {
    HostExample1();
    LowerExample1();
    PrefixExample1();
    DomainVia("https://www.acme.com", "www.acme.com", "acme.com");
  }

  lemma TokenExample1()
    ensures TokenOf("acme.com") == Some("acme")
  {
    SuffixExample1();
    TokenVia("acme.com", "acme");
  }

  lemma SuffixExample1()
    ensures StripFirstSuffix("acme.com", DomainSuffixes) == "acme"
  {
    assert EndsWith("acme.com", DomainSuffixes[0]);
    StripFirstSuffixAt("acme.com", DomainSuffixes, 0);
    assert "acme.com"[..4] == "acme";
  }

  lemma SecondChar(s: string, p: string)
    requires |p| >= 2 && StartsWith(s, p)
    ensures s[1] == p[1]
  {
    assert s[..|p|][1] == s[1];
  }

  lemma HostExample2()
    ensures Host("https://acme.io") == "acme.io"
  {
    var r := "acme.io";
    assert "https://acme.io" == "https://" + r;
    assert forall i :: 0 <= i < |r| ==> !IsUnsafeUrlChar(r[i]) && !IsNetlocEnd(r[i]);
    HostOfPlain(r);
  }

  lemma PrefixExample2()
    ensures StripFirstPrefix("acme.io", DomainPrefixes) == "acme.io"
  {
    forall k | 0 <= k < |DomainPrefixes| ensures !StartsWith("acme.io", DomainPrefixes[k]) {
      var p := DomainPrefixes[k];
      assert |p| >= 3 && p[1] != 'c';
      if StartsWith("acme.io", p) {
        SecondChar("acme.io", p);
      }
    }
    StripFirstPrefixNone("acme.io", DomainPrefixes);
  }

  lemma DomainExample2()
    ensures DomainOf("https://acme.io") == Some("acme.io")
  {
    HostExample2();
    LowerExample2();
    PrefixExample2();
    DomainVia("https://acme.io", "acme.io", "acme.io");
  }

  lemma SuffixExample2()
    ensures StripFirstSuffix("acme.io", DomainSuffixes) == "acme"
  {
    forall k | 0 <= k < 6 ensures !EndsWith("acme.io", DomainSuffixes[k]) {
      var d := "acme.io";
      if |DomainSuffixes[k]| <= |d| {
        assert d[|d| - 2] != DomainSuffixes[k][|DomainSuffixes[k]| - 2];
      }
    }
    assert EndsWith("acme.io", DomainSuffixes[6]);
    StripFirstSuffixAt("acme.io", DomainSuffixes, 6);
    assert "acme.io"[..4] == "acme";
  }

  lemma TokenExample2()
    ensures TokenOf("acme.io") == Some("acme")
  {
    SuffixExample2();
    TokenVia("acme.io", "acme");
  }

  /** A "www." prefix and a ".com" or ".io" TLD are removed alike. */
  lemma WebsiteTokenExamples()
    ensures WebsiteToken("https://www.acme.com") == Some("acme")
    ensures WebsiteToken("https://acme.io") == Some("acme")
  {
    DomainExample1();
    TokenExample1();
    DomainExample2();
    TokenExample2();
  }

  /** Removes the first of the prefixes that s starts with. */
  method StripFirstMatchingPrefix(s: string, prefixes: seq<string>) returns (r: string)
    ensures r == StripFirstPrefix(s, prefixes)
  {
    var i := 0;
    while i < |prefixes|
      invariant 0 <= i <= |prefixes|
      invariant StripFirstPrefix(s, prefixes) == StripFirstPrefix(s, prefixes[i..])
    {
      assert prefixes[i..][1..] == prefixes[i + 1..];
      if StartsWith(s, prefixes[i]) {
        return s[|prefixes[i]|..];
      }
      i := i + 1;
    }
    return s;
  }

  /** extract_domain_from_url: the prefix loop stops at the first match. */
  method ExtractDomain(url: string) returns (domain: Option<string>)
    ensures domain == DomainOf(url)
  {
    if url == [] {
      return None;
    }
    var d := StripFirstMatchingPrefix(Lower(Host(url)), DomainPrefixes);
    return Some(d);
  }

  /** Removes the first of the suffixes that s ends with. */
  method StripFirstMatchingSuffix(s: string, suffixes: seq<string>) returns (r: string)
    ensures r == StripFirstSuffix(s, suffixes)
  {
    var i := 0;
    while i < |suffixes|
      invariant 0 <= i <= |suffixes|
      invariant StripFirstSuffix(s, suffixes) == StripFirstSuffix(s, suffixes[i..])
    {
      assert suffixes[i..][1..] == suffixes[i + 1..];
      if EndsWith(s, suffixes[i]) {
        return s[..|s| - |suffixes[i]|];
      }
      i := i + 1;
    }
    return s;
  }

  /** extract_company_name_from_domain: the TLD loop stops at the first match. */
  method CompanyToken(domain: string) returns (token: Option<string>)
    ensures token == TokenOf(domain)
  {
    if domain == [] {
      return None;
    }
    var d := StripFirstMatchingSuffix(domain, DomainSuffixes);
    var t := Lower(AlnumOnly(d));
    token := if t == [] then None else Some(t);
  }

  /** normalize_company_name: the suffix loop, then de-noising and whitespace collapsing. */
  method NormalizeCompanyName(name: string) returns (normalized: string)
    ensures normalized == Normalized(name)
  {
    if name == [] {
      return [];
    }
    normalized := Lower(name);
    ghost var low := normalized;
    var i := 0;
    while i < |BusinessSuffixes|
      invariant 0 <= i <= |BusinessSuffixes|
      invariant StripLegal(low, BusinessSuffixes) == StripLegal(normalized, BusinessSuffixes[i..])
    {
      assert BusinessSuffixes[i..][1..] == BusinessSuffixes[i + 1..];
      normalized := StripFirstMatchingSuffix(normalized, SuffixPatterns(BusinessSuffixes[i]));
      i := i + 1;
    }
    normalized := Join(" ", Words(Denoise(normalized)));
  }
}
