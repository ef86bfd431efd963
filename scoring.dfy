/**
 * The three similarity signals of the matching service (website, name and
 * address) and the precedence-weighted overall score. Scores are exact reals.
 */
module Scoring {
  import opened Ascii
  import opened Options
  import opened Accounts
  import opened Normalize
  import SequenceMatch

  /** compute_fuzzy_similarity: the difflib ratio of the two normalised names,
      and 0 when either name or its normalisation is empty. */
  function FuzzySimilarity(s1: string, s2: string): (r: real)
    ensures 0.0 <= r <= 1.0
    ensures s1 == [] || s2 == [] || Normalized(s1) == [] || Normalized(s2) == [] ==> r == 0.0
    ensures s1 != [] && s2 != [] && Normalized(s1) != [] && Normalized(s2) != [] ==>
              r == SequenceMatch.Ratio(Normalized(s1), Normalized(s2))
  {
    if s1 == [] || s2 == [] then 0.0
    else
      var n1, n2 := Normalized(s1), Normalized(s2);
      if n1 == [] || n2 == [] then 0.0 else SequenceMatch.Ratio(n1, n2)
  }

  /** Every name that normalises to something is fully similar to itself. */
  lemma FuzzySimilaritySelf(s: string)
    requires Normalized(s) != []
    ensures FuzzySimilarity(s, s) == 1.0
  {
    SequenceMatch.RatioSelf(Normalized(s));
  }

  /** Company tokens are their own normalisation, so comparing two tokens is
      the plain ratio of the tokens. */
  lemma FuzzySimilarityTokens(t1: string, t2: string)
    requires t1 != [] && t2 != [] && AllTokenChars(t1) && AllTokenChars(t2)
    ensures FuzzySimilarity(t1, t2) == SequenceMatch.Ratio(t1, t2)
  {
    NormalizedToken(t1);
    NormalizedToken(t2);
  }

  /** The explanation attached to a score. The two comparison forms stand for
      the "Comparing customer ... (similarity: x%)" sentences, whose number
      formatting is not modelled. */
  datatype Explanation =
    | Text(text: string)
    | DomainComparison(customerDomain: string, shellDomain: string)
    | NameComparison(customerName: string, shellName: string)

  /** A score out of 100 with its explanation. */
  datatype Signal = Signal(score: real, explanation: Explanation)

  /** compute_website_match. */
  function WebsiteMatch(customerWebsite: string, shellWebsite: string): (r: Signal)
    ensures 0.0 <= r.score <= 100.0
    ensures r.explanation.Text? ==> r.score == 0.0 && r.explanation.text != []
    ensures WebsiteToken(customerWebsite).None? || WebsiteToken(shellWebsite).None? ==> r.explanation.Text?
    ensures WebsiteToken(customerWebsite).Some? && WebsiteToken(shellWebsite).Some? ==>
              r.score == 100.0 * SequenceMatch.Ratio(WebsiteToken(customerWebsite).value, WebsiteToken(shellWebsite).value)
  {
    if customerWebsite == [] then Signal(0.0, Text("No customer website provided"))
    else if shellWebsite == [] then Signal(0.0, Text("No shell ZI website provided"))
    else
      var customerDomain, shellDomain := DomainOf(customerWebsite).value, DomainOf(shellWebsite).value;
      if customerDomain == [] then
        Signal(0.0, Text("Could not extract valid domain from customer website: " + customerWebsite))
      else if shellDomain == [] then
        Signal(0.0, Text("Could not extract valid domain from shell ZI website: " + shellWebsite))
      else
        var customerToken, shellToken := TokenOf(customerDomain), TokenOf(shellDomain);
        if customerToken.None? then
          Signal(0.0, Text("Could not extract company name from customer domain: " + customerDomain))
        else if shellToken.None? then
          Signal(0.0, Text("Could not extract company name from shell domain: " + shellDomain))
        else
          FuzzySimilarityTokens(customerToken.value, shellToken.value);
          Signal(100.0 * FuzzySimilarity(customerToken.value, shellToken.value),
                 DomainComparison(customerDomain, shellDomain))
  }

  /** compute_name_match. */
  function NameMatch(customerName: string, shellName: string): (r: Signal)
    ensures 0.0 <= r.score <= 100.0
    ensures r.explanation.Text? ==> r.score == 0.0 && r.explanation.text != []
    ensures customerName == [] || shellName == [] ==> r.explanation.Text?
    ensures customerName != [] && shellName != [] ==>
              r.explanation == NameComparison(Normalized(customerName), Normalized(shellName))
              && r.score == 100.0 * FuzzySimilarity(customerName, shellName)
  {
    if customerName == [] then Signal(0.0, Text("No customer name provided"))
    else if shellName == [] then Signal(0.0, Text("No shell ZI company name provided"))
    else
      Signal(100.0 * FuzzySimilarity(customerName, shellName),
             NameComparison(Normalized(customerName), Normalized(shellName)))
  }

  // ---------------------------------------------------------------------------
  // Address consistency

  /** The four compared address fields, in the order they are compared. */
  datatype Field = Country | State | City | Postal

  function Label(f: Field): string {
    match f
    case Country => "Country"
    case State => "State"
    case City => "City"
    case Postal => "Postal"
  }

  /** An address with every field trimmed and lower-cased. */
  datatype Address = Address(country: string, state: string, city: string, postal: string)

  function Get(a: Address, f: Field): string {
    match f
    case Country => a.country
    case State => a.state
    case City => a.city
    case Postal => a.postal
  }

  function Clean(s: string): string {
    Lower(Strip(s))
  }

  /** The customer's billing address, cleaned. */
  function CustomerAddress(c: Customer): Address {
    Address(Clean(c.country), Clean(c.state), Clean(c.city), Clean(c.postal))
  }

  /** The shell's ZI address, cleaned. */
  function ShellAddress(s: Shell): Address {
    Address(Clean(s.country), Clean(s.state), Clean(s.city), Clean(s.postal))
  }

  /** Both sides have the field and the values are equal. */
  predicate Agrees(x: string, y: string) {
    x != [] && y != [] && x == y
  }

  /** When a field is reported as a mismatch. Country, state and city: both
      present and different. Postal code: missing on either side, because the
      postal `else` belongs to the presence test, not to the equality test. */
  predicate Disagrees(f: Field, x: string, y: string) {
    if f == Postal then x == [] || y == [] else x != [] && y != [] && x != y
  }

  function Points(f: Field, x: string, y: string): nat {
    if !Agrees(x, y) then 0 else if f == Postal then 10 else 30
  }

  /** The score: 30 for each of country, state and city and 10 for the postal
      code, for every field on which both sides agree. */
  function AddressScore(cu: Address, sh: Address): nat {
    Points(Country, cu.country, sh.country) + Points(State, cu.state, sh.state)
    + Points(City, cu.city, sh.city) + Points(Postal, cu.postal, sh.postal)
  }

  function MatchItem(f: Field, x: string, y: string): seq<string> {
    if Agrees(x, y) then [Label(f) + ": " + x] else []
  }

  function MismatchItem(f: Field, x: string, y: string): seq<string> {
    if Disagrees(f, x, y) then [Label(f) + ": " + x + " \U{2260} " + y] else []
  }

  /** The agreeing fields, in comparison order, as "Label: value". */
  function Matches(cu: Address, sh: Address): seq<string> {
    MatchItem(Country, cu.country, sh.country) + MatchItem(State, cu.state, sh.state)
    + MatchItem(City, cu.city, sh.city) + MatchItem(Postal, cu.postal, sh.postal)
  }

  /** The disagreeing fields, in comparison order, as "Label: value \U{2260} value". */
  function Mismatches(cu: Address, sh: Address): seq<string> {
    MismatchItem(Country, cu.country, sh.country) + MismatchItem(State, cu.state, sh.state)
    + MismatchItem(City, cu.city, sh.city) + MismatchItem(Postal, cu.postal, sh.postal)
  }

  /** "Matches: ..." and "Mismatches: ..." joined by "; ", or a fixed sentence
      when there is neither. */
  function ExplanationOf(matches: seq<string>, mismatches: seq<string>): (r: string)
    ensures r != []
  {
    var parts := (if matches != [] then ["Matches: " + Join(", ", matches)] else [])
      + (if mismatches != [] then ["Mismatches: " + Join(", ", mismatches)] else []);
    if parts == [] then "No address data to compare"
    else
      assert parts[0][0] == 'M';
      JoinNonEmpty("; ", parts);
      Join("; ", parts)
  }

  lemma JoinNonEmpty(sep: string, parts: seq<string>)
    requires parts != [] && parts[0] != []
    ensures Join(sep, parts) != []
  {
    if |parts| > 1 {
      assert Join(sep, parts)[0] == parts[0][0];
    }
  }

  function AddressExplanation(cu: Address, sh: Address): string {
    ExplanationOf(Matches(cu, sh), Mismatches(cu, sh))
  }

  /** The score is a multiple of ten between 0 and 100, and it is 100 exactly
      when all four fields agree. */
  lemma AddressScoreRange(cu: Address, sh: Address)
    ensures AddressScore(cu, sh) <= 100 && AddressScore(cu, sh) % 10 == 0
    ensures AddressScore(cu, sh) == 100 <==> forall f :: Agrees(Get(cu, f), Get(sh, f))
  {
    if AddressScore(cu, sh) == 100 {
      forall f ensures Agrees(Get(cu, f), Get(sh, f)) {
        match f
        case Country =>
        case State =>
        case City =>
        case Postal =>
      }
    } else {
      assert !Agrees(cu.country, sh.country) || !Agrees(cu.state, sh.state)
        || !Agrees(cu.city, sh.city) || !Agrees(cu.postal, sh.postal);
      if !Agrees(cu.country, sh.country) {
        assert !Agrees(Get(cu, Country), Get(sh, Country));
      } else if !Agrees(cu.state, sh.state) {
        assert !Agrees(Get(cu, State), Get(sh, State));
      } else if !Agrees(cu.city, sh.city) {
        assert !Agrees(Get(cu, City), Get(sh, City));
      } else {
        assert !Agrees(Get(cu, Postal), Get(sh, Postal));
      }
    }
  }

  /** A field never counts both as a match and as a mismatch; country, state
      and city present on both sides are always one or the other, while a
      postal code present on both sides but different is neither. */
  lemma AgreeExcludesDisagree(f: Field, x: string, y: string)
    ensures Agrees(x, y) ==> !Disagrees(f, x, y)
    ensures f != Postal && x != [] && y != [] ==> Agrees(x, y) != Disagrees(f, x, y)
    ensures f == Postal && x != [] && y != [] && x != y ==> !Agrees(x, y) && !Disagrees(f, x, y)
  {
  }

  /** With no address on either side the only reported item is the postal
      code, as a mismatch of two empty values. */
  lemma EmptyAddresses()
    ensures var e := Address([], [], [], []);
      AddressScore(e, e) == 0 && AddressExplanation(e, e) == "Mismatches: Postal:  \U{2260} "
  {
    var e := Address([], [], [], []);
    assert Matches(e, e) == [];
    assert MismatchItem(Postal, [], []) == ["Postal" + ": " + [] + " \U{2260} " + []];
    assert "Postal" + ": " + [] + " \U{2260} " + [] == "Postal:  \U{2260} ";
    assert Mismatches(e, e) == ["Postal:  \U{2260} "];
  }

  /** compute_address_consistency_score for one of country, state and city. */
  method CompareField(f: Field, x: string, y: string, score: nat, matches: seq<string>, mismatches: seq<string>)
    returns (score': nat, matches': seq<string>, mismatches': seq<string>)
    requires f != Postal
    ensures score' == score + Points(f, x, y)
    ensures matches' == matches + MatchItem(f, x, y)
    ensures mismatches' == mismatches + MismatchItem(f, x, y)
  {
    score', matches', mismatches' := score, matches, mismatches;
    if x != [] && y != [] {
      if x == y {
        score' := score' + 30;
        matches' := matches' + [Label(f) + ": " + x];
      } else {
        mismatches' := mismatches' + [Label(f) + ": " + x + " \U{2260} " + y];
      }
    }
  }

  /** compute_address_consistency_score: cleans both addresses, then compares them. */
  method AddressConsistency(c: Customer, s: Shell) returns (score: nat, explanation: string)
    ensures score == AddressScore(CustomerAddress(c), ShellAddress(s))
    ensures explanation == AddressExplanation(CustomerAddress(c), ShellAddress(s))
  {
    var cu, sh := CustomerAddress(c), ShellAddress(s);
    score, explanation := CompareAddresses(cu, sh);
  }

  /** The body of compute_address_consistency_score after cleaning: the score
      and the two lists are accumulated field by field. */
  method CompareAddresses(cu: Address, sh: Address) returns (score: nat, explanation: string)
    ensures score == AddressScore(cu, sh)
    ensures explanation == AddressExplanation(cu, sh)
  {
    var matches: seq<string> := [];
    var mismatches: seq<string> := [];
    score := 0;
    score, matches, mismatches := CompareField(Country, cu.country, sh.country, score, matches, mismatches);
    score, matches, mismatches := CompareField(State, cu.state, sh.state, score, matches, mismatches);
    score, matches, mismatches := CompareField(City, cu.city, sh.city, score, matches, mismatches);
    score, matches, mismatches := ComparePostal(cu.postal, sh.postal, score, matches, mismatches);
    ListsInOrder(cu, sh);
    explanation := ExplanationOf(matches, mismatches);
  }

  /** The postal step: equal codes score, and a code missing on either side
      is the mismatch. */
  method ComparePostal(x: string, y: string, score: nat, matches: seq<string>, mismatches: seq<string>)
    returns (score': nat, matches': seq<string>, mismatches': seq<string>)
    ensures score' == score + Points(Postal, x, y)
    ensures matches' == matches + MatchItem(Postal, x, y)
    ensures mismatches' == mismatches + MismatchItem(Postal, x, y)
  {
    assert Label(Postal) + ": " == "Postal: ";
    score', matches', mismatches' := score, matches, mismatches;
    if x != [] && y != [] {
      if x == y {
        score' := score' + 10;
        matches' := matches' + ["Postal: " + x];
      }
    } else {
      mismatches' := mismatches' + ["Postal: " + x + " \U{2260} " + y];
    }
  }

  /** Appending the four fields' items one at a time builds the two lists. */
  lemma ListsInOrder(cu: Address, sh: Address)
    ensures [] + MatchItem(Country, cu.country, sh.country) + MatchItem(State, cu.state, sh.state)
            + MatchItem(City, cu.city, sh.city) + MatchItem(Postal, cu.postal, sh.postal) == Matches(cu, sh)
    ensures [] + MismatchItem(Country, cu.country, sh.country) + MismatchItem(State, cu.state, sh.state)
            + MismatchItem(City, cu.city, sh.city) + MismatchItem(Postal, cu.postal, sh.postal) == Mismatches(cu, sh)
  {
  }

  // ---------------------------------------------------------------------------
  // Overall score

  /** Which signal leads the overall score. */
  datatype Branch = WebsiteLed | NameLed | AddressLed

  /** Data precedence by raw field presence: websites, then names, then address. */
  function Precedence(c: Customer, s: Shell): Branch {
    if c.website != [] && s.website != [] then WebsiteLed
    else if c.name != [] && s.name != [] then NameLed
    else AddressLed
  }

  /** The result of compute_overall_similarity. */
  datatype Similarity = Similarity(
    website: Signal,
    name: Signal,
    address: nat,
    addressExplanation: string,
    overall: real)

  /** The weighted sum of compute_overall_similarity before the cap at 100:
      the branch's primary signal at 0.6, the name at 0.3 when the websites
      lead, and a tenth of the address score over 100. */
  function Weighted(branch: Branch, website: real, name: real, address: nat): real {
    var primary :=
      if branch == WebsiteLed then website * 0.6
      else if branch == NameLed then name * 0.6
      else address as real * 0.6 / 100.0;
    var secondary := if branch == WebsiteLed then name * 0.3 else 0.0;
    var geo := address as real * 0.1 / 100.0;
    primary + secondary + geo
  }

  /** compute_overall_similarity. */
  function OverallSimilarity(c: Customer, s: Shell): (r: Similarity)
    ensures 0.0 <= r.overall <= 90.1
    ensures r.website == WebsiteMatch(c.website, s.website) && r.name == NameMatch(c.name, s.name)
    ensures r.address == AddressScore(CustomerAddress(c), ShellAddress(s))
    ensures r.addressExplanation == AddressExplanation(CustomerAddress(c), ShellAddress(s))
    ensures r.overall == Weighted(Precedence(c, s), r.website.score, r.name.score, r.address)
  {
    var website := WebsiteMatch(c.website, s.website);
    var name := NameMatch(c.name, s.name);
    var cu, sh := CustomerAddress(c), ShellAddress(s);
    var address := AddressScore(cu, sh);
    AddressScoreRange(cu, sh);
    var total := Weighted(Precedence(c, s), website.score, name.score, address);
    WeightedByBranch(Precedence(c, s), website.score, name.score, address);
    Similarity(website, name, address, AddressExplanation(cu, sh), if total < 100.0 then total else 100.0)
  }

  /** For scores in range, the weighted sum of each branch, at most 90.1. */
  lemma WeightedByBranch(branch: Branch, website: real, name: real, address: nat)
    requires 0.0 <= website <= 100.0 && 0.0 <= name <= 100.0 && address <= 100
    ensures var geo := address as real / 1000.0;
      && (branch == WebsiteLed ==> Weighted(branch, website, name, address) == 0.6 * website + 0.3 * name + geo)
      && (branch == NameLed ==> Weighted(branch, website, name, address) == 0.6 * name + geo)
      && (branch == AddressLed ==> Weighted(branch, website, name, address) == 0.7 * address as real / 100.0)
    ensures 0.0 <= Weighted(branch, website, name, address) <= 90.1
  {
  }

  /** The cap at 100 never applies: the overall score is the weighted sum
      of the branch's signals plus a tenth of the address score over 100. */
  lemma OverallByBranch(c: Customer, s: Shell)
    ensures var r := OverallSimilarity(c, s);
      var geo := r.address as real / 1000.0;
      && (Precedence(c, s) == WebsiteLed ==> r.overall == 0.6 * r.website.score + 0.3 * r.name.score + geo)
      && (Precedence(c, s) == NameLed ==> r.overall == 0.6 * r.name.score + geo)
      && (Precedence(c, s) == AddressLed ==> r.overall == 0.7 * r.address as real / 100.0)
  {
    var r := OverallSimilarity(c, s);
    AddressScoreRange(CustomerAddress(c), ShellAddress(s));
    WeightedByBranch(Precedence(c, s), r.website.score, r.name.score, r.address);
  }

  /** When both websites are present the names cannot change the branch. */
  lemma NamesDoNotChangeBranch(c: Customer, s: Shell, customerName: string, shellName: string)
    requires c.website != [] && s.website != []
    ensures Precedence(c.(name := customerName), s.(name := shellName)) == WebsiteLed
  {
  }

  /** Raw presence decides: two websites with no extractable company token
      still lead, so the name counts only at the secondary weight. */
  lemma UnusableWebsitesStillLead(c: Customer, s: Shell)
    requires c.website != [] && s.website != []
    requires WebsiteToken(c.website).None?
    ensures OverallSimilarity(c, s).overall
         == 0.3 * NameMatch(c.name, s.name).score + AddressScore(CustomerAddress(c), ShellAddress(s)) as real / 1000.0
  {
    OverallByBranch(c, s);
  }
}
