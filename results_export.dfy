/**
 * The data of the matching-results workbook: one entry per customer account
 * (matched, unmatched, flagged for a bad domain, or with an invalid Id),
 * sorted by customer name, and the row of cells written for each entry.
 *
 * Styling, the title, timestamp and summary lines, and saving the workbook
 * are not part of this model. Numbers that the workbook shows with one
 * decimal are kept as numbers; a blank cell is `None`.
 */
module ResultsExport {
  import opened Ascii
  import opened Options
  import opened Accounts
  import opened Sorting
  import AccountValidation

  // ---------------------------------------------------------------------------
  // Entries

  datatype Status = Matched | Unmatched | Flagged | Invalid

  function StatusText(s: Status): string {
    match s
    case Matched => "MATCHED"
    case Unmatched => "UNMATCHED"
    case Flagged => "FLAGGED"
    case Invalid => "INVALID"
  }

  /** The AI review of a match: its confidence score and explanation bullets. */
  datatype Assessment = Assessment(confidenceScore: int, explanationBullets: seq<string>)

  /** The assessment of an entry that was never reviewed. */
  const NoAssessment := Assessment(0, [])

  /** Why an entry has its status: a match with its confidence, or a text. */
  datatype Reason = MatchConfidence(percent: real) | Because(text: string)

  /** A matched customer as the matcher reports it. */
  datatype MatchedPair = MatchedPair(
    customer: Customer, shell: Shell,
    matchConfidence: real, websiteMatch: real, nameMatch: real, addressConsistency: real,
    assessment: Assessment, candidateCount: int, totalShells: int)

  /** An unmatched customer, with the matcher's reason when it gave one. */
  datatype UnmatchedCustomer = UnmatchedCustomer(customer: Customer, reason: Option<string>)

  /** One entry of all_customer_results. */
  datatype Entry = Entry(
    customer: Customer, status: Status, reason: Reason, shell: Option<Shell>,
    matchConfidence: real, websiteMatch: real, nameMatch: real, addressConsistency: real,
    assessment: Assessment, candidateCount: int, totalShells: int)

  function MatchedEntry(p: MatchedPair): Entry {
    Entry(p.customer, Matched, MatchConfidence(p.matchConfidence), Some(p.shell),
          p.matchConfidence, p.websiteMatch, p.nameMatch, p.addressConsistency,
          p.assessment, p.candidateCount, p.totalShells)
  }

  function UnmatchedEntry(u: UnmatchedCustomer): Entry {
    var reason := if u.reason.Some? then u.reason.value else "No suitable shell match found";
    Entry(u.customer, Unmatched, Because(reason), None, 0.0, 0.0, 0.0, 0.0, NoAssessment, 0, 0)
  }

  function FlaggedEntry(f: AccountValidation.FlaggedAccount): Entry {
    Entry(f.account, Flagged, Because("Excluded from matching: " + f.badDomain.explanation), None,
          0.0, 0.0, 0.0, 0.0, NoAssessment, 0, 0)
  }

  const InvalidName := "INVALID ACCOUNT ID"

  /** The stand-in customer written for an Id that Salesforce does not know. */
  function InvalidCustomer(id: string): Customer {
    Customer(id, InvalidName, "", "", "", "", "")
  }

  function InvalidEntry(id: string): Entry {
    Entry(InvalidCustomer(id), Invalid, Because("Invalid Account ID - does not exist in Salesforce"), None,
          0.0, 0.0, 0.0, 0.0, NoAssessment, 0, 0)
  }

  function MatchedEntries(ps: seq<MatchedPair>): (r: seq<Entry>)
    ensures |r| == |ps| && forall i :: 0 <= i < |ps| ==> r[i] == MatchedEntry(ps[i])
  {
    seq(|ps|, i requires 0 <= i < |ps| => MatchedEntry(ps[i]))
  }

  function UnmatchedEntries(us: seq<UnmatchedCustomer>): (r: seq<Entry>)
    ensures |r| == |us| && forall i :: 0 <= i < |us| ==> r[i] == UnmatchedEntry(us[i])
  {
    seq(|us|, i requires 0 <= i < |us| => UnmatchedEntry(us[i]))
  }

  function FlaggedEntries(fs: seq<AccountValidation.FlaggedAccount>): (r: seq<Entry>)
    ensures |r| == |fs| && forall i :: 0 <= i < |fs| ==> r[i] == FlaggedEntry(fs[i])
  {
    seq(|fs|, i requires 0 <= i < |fs| => FlaggedEntry(fs[i]))
  }

  function InvalidEntries(ids: seq<string>): (r: seq<Entry>)
    ensures |r| == |ids| && forall i :: 0 <= i < |ids| ==> r[i] == InvalidEntry(ids[i])
  {
    seq(|ids|, i requires 0 <= i < |ids| => InvalidEntry(ids[i]))
  }

  /** The entries in the order they are appended: matched, unmatched, flagged, invalid. */
  function Assembled(ps: seq<MatchedPair>, us: seq<UnmatchedCustomer>,
                     fs: seq<AccountValidation.FlaggedAccount>, ids: seq<string>): seq<Entry> {
    MatchedEntries(ps) + UnmatchedEntries(us) + FlaggedEntries(fs) + InvalidEntries(ids)
  }

  // ---------------------------------------------------------------------------
  // String order and the sort by name

  /** Python's `<` on strings: lexicographic by character code. */
  predicate LexLess(a: string, b: string) {
    if b == [] then false
    else if a == [] then true
    else a[0] < b[0] || (a[0] == b[0] && LexLess(a[1..], b[1..]))
  }

  lemma {:induction false} LexIrreflexive(a: string)
    ensures !LexLess(a, a)
  {
    if a != [] {
      LexIrreflexive(a[1..]);
    }
  }

  lemma {:induction false} LexTransitive(a: string, b: string, c: string)
    requires LexLess(a, b) && LexLess(b, c)
    ensures LexLess(a, c)
  {
    if a != [] && a[0] == b[0] && b[0] == c[0] {
      LexTransitive(a[1..], b[1..], c[1..]);
    }
  }

  /** Any two different strings are ordered one way or the other. */
  lemma {:induction false} LexTotal(a: string, b: string)
    ensures a == b || LexLess(a, b) || LexLess(b, a)
  {
    if a != [] && b != [] && a[0] == b[0] {
      LexTotal(a[1..], b[1..]);
      if a[1..] == b[1..] {
        assert a == [a[0]] + a[1..] && b == [b[0]] + b[1..];
      }
    }
  }

  lemma LexIsStrictOrder()
    ensures StrictOrder(LexLess)
  {
    forall a ensures !LexLess(a, a) {
      LexIrreflexive(a);
    }
    forall a, b, c | LexLess(a, b) && LexLess(b, c) ensures LexLess(a, c) {
      LexTransitive(a, b, c);
    }
  }

  /** The sort key: the customer name. */
  function NameOf(e: Entry): string {
    e.customer.name
  }

  /** all_customer_results after the stable sort by customer name. */
  function Results(ps: seq<MatchedPair>, us: seq<UnmatchedCustomer>,
                   fs: seq<AccountValidation.FlaggedAccount>, ids: seq<string>): seq<Entry> {
    Sort(Assembled(ps, us, fs, ids), NameOf, LexLess)
  }

  /** The four append loops of create_matching_results_export, then the sort by name. */
  method AssembleResults(ps: seq<MatchedPair>, us: seq<UnmatchedCustomer>,
                         fs: seq<AccountValidation.FlaggedAccount>, ids: seq<string>)
    returns (allCustomerResults: seq<Entry>)
    ensures allCustomerResults == Results(ps, us, fs, ids)
  {
    allCustomerResults := AppendMatched([], ps);
    assert allCustomerResults == MatchedEntries(ps);
    allCustomerResults := AppendUnmatched(allCustomerResults, us);
    allCustomerResults := AppendFlagged(allCustomerResults, fs);
    allCustomerResults := AppendInvalid(allCustomerResults, ids);
    assert allCustomerResults == Assembled(ps, us, fs, ids);
    allCustomerResults := Sort(allCustomerResults, NameOf, LexLess);
  }

  /** The loop over the matched pairs. */
  method AppendMatched(acc: seq<Entry>, ps: seq<MatchedPair>) returns (r: seq<Entry>)
    ensures r == acc + MatchedEntries(ps)
  {
    r := acc;
    for i := 0 to |ps|
      invariant r == acc + MatchedEntries(ps[..i])
    {
      assert MatchedEntries(ps[..i + 1]) == MatchedEntries(ps[..i]) + [MatchedEntry(ps[i])];
      r := r + [MatchedEntry(ps[i])];
    }
    assert ps[..|ps|] == ps;
  }

  /** The loop over the unmatched customers. */
  method AppendUnmatched(acc: seq<Entry>, us: seq<UnmatchedCustomer>) returns (r: seq<Entry>)
    ensures r == acc + UnmatchedEntries(us)
  {
    r := acc;
    for i := 0 to |us|
      invariant r == acc + UnmatchedEntries(us[..i])
    {
      r := r + [UnmatchedEntry(us[i])];
    }
    assert us[..|us|] == us;
  }

  /** The loop over the flagged accounts. */
  method AppendFlagged(acc: seq<Entry>, fs: seq<AccountValidation.FlaggedAccount>) returns (r: seq<Entry>)
    ensures r == acc + FlaggedEntries(fs)
  {
    r := acc;
    for i := 0 to |fs|
      invariant r == acc + FlaggedEntries(fs[..i])
    {
      assert FlaggedEntries(fs[..i + 1]) == FlaggedEntries(fs[..i]) + [FlaggedEntry(fs[i])];
      r := r + [FlaggedEntry(fs[i])];
    }
    assert fs[..|fs|] == fs;
  }

  /** The loop over the Ids that do not exist in Salesforce. */
  method AppendInvalid(acc: seq<Entry>, ids: seq<string>) returns (r: seq<Entry>)
    ensures r == acc + InvalidEntries(ids)
  {
    r := acc;
    for i := 0 to |ids|
      invariant r == acc + InvalidEntries(ids[..i])
    {
      assert InvalidEntries(ids[..i + 1]) == InvalidEntries(ids[..i]) + [InvalidEntry(ids[i])];
      r := r + [InvalidEntry(ids[i])];
    }
    assert ids[..|ids|] == ids;
  }

  // ---------------------------------------------------------------------------
  // Properties of the entries

  function HasStatus(s: Status): Entry -> bool {
    (e: Entry) => e.status == s
  }

  lemma {:induction false} CountAll(xs: seq<Entry>, s: Status)
    requires forall i :: 0 <= i < |xs| ==> xs[i].status == s
    ensures CountWhere(xs, HasStatus(s)) == |xs|
  {
    if xs != [] {
      CountAll(xs[..|xs| - 1], s);
      assert xs == xs[..|xs| - 1] + [xs[|xs| - 1]];
      CountAppend(xs[..|xs| - 1], [xs[|xs| - 1]], HasStatus(s));
      assert [xs[|xs| - 1]][..0] == [];
    }
  }

  lemma {:induction false} CountNone(xs: seq<Entry>, s: Status)
    requires forall i :: 0 <= i < |xs| ==> xs[i].status != s
    ensures CountWhere(xs, HasStatus(s)) == 0
  {
    if xs != [] {
      CountNone(xs[..|xs| - 1], s);
      assert xs == xs[..|xs| - 1] + [xs[|xs| - 1]];
      CountAppend(xs[..|xs| - 1], [xs[|xs| - 1]], HasStatus(s));
      assert [xs[|xs| - 1]][..0] == [];
    }
  }

  /** The count of entries with status s in the concatenation of four lists. */
  lemma CountFour(a: seq<Entry>, b: seq<Entry>, c: seq<Entry>, d: seq<Entry>, s: Status)
    ensures CountWhere(a + b + c + d, HasStatus(s))
         == CountWhere(a, HasStatus(s)) + CountWhere(b, HasStatus(s)) + CountWhere(c, HasStatus(s)) + CountWhere(d, HasStatus(s))
  {
    CountAppend(a, b, HasStatus(s));
    CountAppend(a + b, c, HasStatus(s));
    CountAppend(a + b + c, d, HasStatus(s));
  }

  /** There is one entry per input, and each status labels exactly the
      entries of its own input list. */
  lemma ResultsCounts(ps: seq<MatchedPair>, us: seq<UnmatchedCustomer>,
                      fs: seq<AccountValidation.FlaggedAccount>, ids: seq<string>)
    ensures |Results(ps, us, fs, ids)| == |ps| + |us| + |fs| + |ids|
    ensures CountWhere(Results(ps, us, fs, ids), HasStatus(Matched)) == |ps|
    ensures CountWhere(Results(ps, us, fs, ids), HasStatus(Unmatched)) == |us|
    ensures CountWhere(Results(ps, us, fs, ids), HasStatus(Flagged)) == |fs|
    ensures CountWhere(Results(ps, us, fs, ids), HasStatus(Invalid)) == |ids|
  {
    var m, u, f, v := MatchedEntries(ps), UnmatchedEntries(us), FlaggedEntries(fs), InvalidEntries(ids);
    var all := Assembled(ps, us, fs, ids);
    forall s: Status ensures CountWhere(Results(ps, us, fs, ids), HasStatus(s)) == CountWhere(all, HasStatus(s)) {
      SortCount(all, NameOf, LexLess, HasStatus(s));
    }
    CountFour(m, u, f, v, Matched);
    CountAll(m, Matched); CountNone(u, Matched); CountNone(f, Matched); CountNone(v, Matched);
    CountFour(m, u, f, v, Unmatched);
    CountNone(m, Unmatched); CountAll(u, Unmatched); CountNone(f, Unmatched); CountNone(v, Unmatched);
    CountFour(m, u, f, v, Flagged);
    CountNone(m, Flagged); CountNone(u, Flagged); CountAll(f, Flagged); CountNone(v, Flagged);
    CountFour(m, u, f, v, Invalid);
    CountNone(m, Invalid); CountNone(u, Invalid); CountNone(f, Invalid); CountAll(v, Invalid);
  }

  /** The entries are ordered by customer name, and entries with the same
      name keep the order in which they were appended. */
  lemma ResultsOrder(ps: seq<MatchedPair>, us: seq<UnmatchedCustomer>,
                     fs: seq<AccountValidation.FlaggedAccount>, ids: seq<string>)
    ensures multiset(Results(ps, us, fs, ids)) == multiset(Assembled(ps, us, fs, ids))
    ensures forall i, j :: 0 <= i < j < |Results(ps, us, fs, ids)| ==>
              var a, b := Results(ps, us, fs, ids)[i].customer.name, Results(ps, us, fs, ids)[j].customer.name;
              a == b || LexLess(a, b)
    ensures forall name :: KeyFilter(Results(ps, us, fs, ids), NameOf, name)
                        == KeyFilter(Assembled(ps, us, fs, ids), NameOf, name)
  {
    var all := Assembled(ps, us, fs, ids);
    var r := Results(ps, us, fs, ids);
    LexIsStrictOrder();
    SortSorted(all, NameOf, LexLess);
    forall i, j | 0 <= i < j < |r| ensures r[i].customer.name == r[j].customer.name || LexLess(r[i].customer.name, r[j].customer.name) {
      LexTotal(r[i].customer.name, r[j].customer.name);
      assert !LexLess(NameOf(r[j]), NameOf(r[i]));
    }
    forall name {
      SortStable(all, NameOf, LexLess, name);
    }
  }

  /** Only a matched entry carries a shell, scores, an assessment and a
      candidate count; an invalid entry is named INVALID ACCOUNT ID and has
      no website or address. */
  predicate WellShaped(e: Entry) {
    && (e.status == Matched <==> e.shell.Some?)
    && (e.status != Matched ==>
          && e.matchConfidence == 0.0 && e.websiteMatch == 0.0 && e.nameMatch == 0.0
          && e.addressConsistency == 0.0 && e.assessment == NoAssessment
          && e.candidateCount == 0 && e.totalShells == 0)
    && (e.status == Invalid ==>
          && e.customer.name == InvalidName && e.customer.website == ""
          && e.customer.city == "" && e.customer.state == "" && e.customer.country == "" && e.customer.postal == "")
  }

  ghost predicate AllWellShaped(es: seq<Entry>) {
    forall e :: e in es ==> WellShaped(e)
  }

  lemma AllWellShapedAppend(a: seq<Entry>, b: seq<Entry>)
    requires AllWellShaped(a) && AllWellShaped(b)
    ensures AllWellShaped(a + b)
  {
    assert forall e :: e in a + b ==> e in a || e in b;
  }

  lemma MatchedShapes(ps: seq<MatchedPair>)
    ensures AllWellShaped(MatchedEntries(ps))
  {
    var m := MatchedEntries(ps);
    forall e | e in m ensures WellShaped(e) {
      var k :| 0 <= k < |m| && m[k] == e;
    }
  }

  lemma UnmatchedShapes(us: seq<UnmatchedCustomer>)
    ensures AllWellShaped(UnmatchedEntries(us))
  {
    var u := UnmatchedEntries(us);
    forall e | e in u ensures WellShaped(e) {
      var k :| 0 <= k < |u| && u[k] == e;
    }
  }

  lemma FlaggedShapes(fs: seq<AccountValidation.FlaggedAccount>)
    ensures AllWellShaped(FlaggedEntries(fs))
  {
    var f := FlaggedEntries(fs);
    forall e | e in f ensures WellShaped(e) {
      var k :| 0 <= k < |f| && f[k] == e;
    }
  }

  lemma InvalidShapes(ids: seq<string>)
    ensures AllWellShaped(InvalidEntries(ids))
  {
    var v := InvalidEntries(ids);
    forall e | e in v ensures WellShaped(e) {
      var k :| 0 <= k < |v| && v[k] == e;
    }
  }

  lemma AssembledShapes(ps: seq<MatchedPair>, us: seq<UnmatchedCustomer>,
                        fs: seq<AccountValidation.FlaggedAccount>, ids: seq<string>)
    ensures AllWellShaped(Assembled(ps, us, fs, ids))
  {
    var m, u, f, v := MatchedEntries(ps), UnmatchedEntries(us), FlaggedEntries(fs), InvalidEntries(ids);
    MatchedShapes(ps);
    UnmatchedShapes(us);
    FlaggedShapes(fs);
    InvalidShapes(ids);
    AllWellShapedAppend(m, u);
    AllWellShapedAppend(m + u, f);
    AllWellShapedAppend(m + u + f, v);
  }

  /** Every entry of the results has the shape of its status. */
  lemma EntryShapes(ps: seq<MatchedPair>, us: seq<UnmatchedCustomer>,
                    fs: seq<AccountValidation.FlaggedAccount>, ids: seq<string>)
    ensures forall e :: e in Results(ps, us, fs, ids) ==> WellShaped(e)
  {
    var all := Assembled(ps, us, fs, ids);
    AssembledShapes(ps, us, fs, ids);
    forall e | e in Results(ps, us, fs, ids) ensures e in all {
      assert e in multiset(Results(ps, us, fs, ids));
    }
  }

  // ---------------------------------------------------------------------------
  // Rows

  /** The non-empty address fields in the order city, state, country, postal code. */
  function AddressParts(city: string, state: string, country: string, postal: string): seq<string> {
    (if city != [] then [city] else []) + (if state != [] then [state] else [])
    + (if country != [] then [country] else []) + (if postal != [] then [postal] else [])
  }

  function AddressText(city: string, state: string, country: string, postal: string): string {
    Join(", ", AddressParts(city, state, country, postal))
  }

  /** The address cell: the non-empty fields appended one by one, then joined. */
  method FormatAddress(city: string, state: string, country: string, postal: string) returns (address: string)
    ensures address == AddressText(city, state, country, postal)
  {
    var addressParts: seq<string> := [];
    if city != [] {
      addressParts := addressParts + [city];
    }
    if state != [] {
      addressParts := addressParts + [state];
    }
    if country != [] {
      addressParts := addressParts + [country];
    }
    if postal != [] {
      addressParts := addressParts + [postal];
    }
    assert addressParts == AddressParts(city, state, country, postal);
    address := Join(", ", addressParts);
  }

  lemma JoinEmpty(parts: seq<string>)
    requires forall k :: 0 <= k < |parts| ==> parts[k] != []
    ensures Join(", ", parts) == [] <==> parts == []
  {
    if |parts| > 1 {
      assert Join(", ", parts) == parts[0] + ", " + Join(", ", parts[1..]);
    }
  }

  /** The address is empty exactly when every field is, and a single present
      field is the whole address. */
  lemma AddressTextSpec(city: string, state: string, country: string, postal: string)
    ensures AddressText(city, state, country, postal) == [] <==> city == [] && state == [] && country == [] && postal == []
    ensures state == [] && country == [] && postal == [] ==> AddressText(city, state, country, postal) == city
    ensures city == [] && state == [] && country == [] ==> AddressText(city, state, country, postal) == postal
  {
    var parts := AddressParts(city, state, country, postal);
    assert forall k :: 0 <= k < |parts| ==> parts[k] != [];
    JoinEmpty(parts);
  }

  /** A row of the results sheet, in column order. Score cells are None when blank. */
  datatype Row = Row(
    customerId: string, customerName: string, customerWebsite: string, customerAddress: string,
    status: string, reason: Reason,
    shellId: string, shellName: string, shellZiId: string, shellWebsite: string, shellAddress: string,
    overall: Option<real>, website: Option<real>, name: Option<real>, address: Option<real>,
    aiScore: Option<string>, aiExplanation: string,
    candidateCount: Option<int>, notes: string)

  /** A score cell: the value when positive, blank otherwise. */
  function ScoreCell(v: real): Option<real> {
    if v > 0.0 then Some(v) else None
  }

  function AiScoreCell(score: int): Option<string> {
    if score > 0 then Some(NatToString(score) + "/100") else None
  }

  function AiExplanation(e: Entry): string {
    if e.assessment.explanationBullets != [] then Join("\n", e.assessment.explanationBullets)
    else if e.status != Matched then "No AI analysis (not matched)"
    else "No AI explanation available"
  }

  /** The processing note: the candidate counts for a match, the threshold
      note for no match, and the exclusion note for every other status. */
  function Notes(e: Entry): string {
    if e.status == Matched then
      "Evaluated " + IntToString(e.totalShells) + " shell candidates, found "
      + IntToString(e.candidateCount) + " potential matches"
    else if e.status == Unmatched then "No matching shell candidates met minimum similarity threshold"
    else "Excluded from matching due to data quality issues"
  }

  /** str() of an integer. */
  function IntToString(n: int): string {
    if n < 0 then "-" + NatToString(-n) else NatToString(n)
  }

  function ShellAddress(shell: Option<Shell>): string {
    if shell.Some? then AddressText(shell.value.city, shell.value.state, shell.value.country, shell.value.postal)
    else ""
  }

  function RowOf(e: Entry): Row {
    var c := e.customer;
    Row(c.id, c.name, c.website, AddressText(c.city, c.state, c.country, c.postal),
        StatusText(e.status), e.reason,
        if e.shell.Some? then e.shell.value.id else "",
        if e.shell.Some? then e.shell.value.name else "",
        if e.shell.Some? then e.shell.value.ziId else "",
        if e.shell.Some? then e.shell.value.website else "",
        ShellAddress(e.shell),
        ScoreCell(e.matchConfidence), ScoreCell(e.websiteMatch), ScoreCell(e.nameMatch), ScoreCell(e.addressConsistency),
        AiScoreCell(e.assessment.confidenceScore), AiExplanation(e),
        if e.candidateCount > 0 then Some(e.candidateCount) else None,
        Notes(e))
  }

  /** The row of one entry, with its addresses formatted field by field. */
  method FormatRow(e: Entry) returns (row: Row)
    ensures row == RowOf(e)
  {
    var customer := e.customer;
    var customerAddress := FormatAddress(customer.city, customer.state, customer.country, customer.postal);
    var shellAddress := "";
    if e.shell.Some? {
      var s := e.shell.value;
      shellAddress := FormatAddress(s.city, s.state, s.country, s.postal);
    }
    row := RowOf(e).(customerAddress := customerAddress, shellAddress := shellAddress);
  }

  function RowsOf(es: seq<Entry>): (rows: seq<Row>)
    ensures |rows| == |es| && forall i :: 0 <= i < |es| ==> rows[i] == RowOf(es[i])
  {
    if es == [] then [] else RowsOf(es[..|es| - 1]) + [RowOf(es[|es| - 1])]
  }

  /** The rows of the results sheet: the sorted entries, one row each. */
  method ResultRows(ps: seq<MatchedPair>, us: seq<UnmatchedCustomer>,
                    fs: seq<AccountValidation.FlaggedAccount>, ids: seq<string>)
    returns (rows: seq<Row>)
    ensures rows == RowsOf(Results(ps, us, fs, ids))
  {
    var allCustomerResults := AssembleResults(ps, us, fs, ids);
    rows := FormatRows(allCustomerResults);
  }

  /** The loop that writes one row per entry. */
  method FormatRows(allCustomerResults: seq<Entry>) returns (rows: seq<Row>)
    ensures rows == RowsOf(allCustomerResults)
  {
    rows := [];
    for i := 0 to |allCustomerResults|
      invariant rows == RowsOf(allCustomerResults[..i])
    {
      assert allCustomerResults[..i + 1][..i] == allCustomerResults[..i];
      var row := FormatRow(allCustomerResults[i]);
      rows := rows + [row];
    }
    assert allCustomerResults[..|allCustomerResults|] == allCustomerResults;
  }

  /** A row's score and count cells are blank exactly for values of zero or
      less, and its shell columns are empty when there is no shell. */
  lemma RowCells(e: Entry)
    ensures RowOf(e).overall.None? <==> e.matchConfidence <= 0.0
    ensures RowOf(e).website.None? <==> e.websiteMatch <= 0.0
    ensures RowOf(e).name.None? <==> e.nameMatch <= 0.0
    ensures RowOf(e).address.None? <==> e.addressConsistency <= 0.0
    ensures RowOf(e).aiScore.None? <==> e.assessment.confidenceScore <= 0
    ensures RowOf(e).candidateCount.None? <==> e.candidateCount <= 0
    ensures e.shell.None? ==>
              && RowOf(e).shellId == "" && RowOf(e).shellName == "" && RowOf(e).shellZiId == ""
              && RowOf(e).shellWebsite == "" && RowOf(e).shellAddress == ""
  {
  }

  /** Each status gets its own processing note: matches report their counts,
      unmatched entries the threshold note, and flagged and invalid entries
      the exclusion note. */
  lemma RowNotes(e: Entry)
    ensures e.status == Matched ==> StartsWith(RowOf(e).notes, "Evaluated ")
    ensures e.status == Unmatched ==> RowOf(e).notes == "No matching shell candidates met minimum similarity threshold"
    ensures e.status == Flagged || e.status == Invalid ==>
              RowOf(e).notes == "Excluded from matching due to data quality issues"
  {
  }

  /** A row of a non-matched entry from the results has no shell, no score
      and no count, and explains that there was no AI analysis unless the
      entry carries bullets, which it never does. */
  lemma UnmatchedRow(e: Entry)
    requires e.status != Matched && e.shell.None? && e.matchConfidence == 0.0 && e.websiteMatch == 0.0
    requires e.nameMatch == 0.0 && e.addressConsistency == 0.0 && e.assessment == NoAssessment && e.candidateCount == 0
    ensures var r := RowOf(e);
            && r.overall.None? && r.website.None? && r.name.None? && r.address.None?
            && r.aiScore.None? && r.candidateCount.None? && r.shellAddress == ""
            && r.aiExplanation == "No AI analysis (not matched)"
  {
  }
}
