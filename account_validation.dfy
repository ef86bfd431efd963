/**
 * Validation of uploaded account Ids against Salesforce, and the split of
 * customer accounts into clean ones and ones flagged for a bad domain.
 *
 * The Salesforce query itself is I/O: the set of Ids it returns is a
 * parameter, `found`.
 */
module AccountValidation {
  import opened Ascii
  import opened Options
  import opened Accounts
  import opened SalesforceIds

  /** Which validator: customer Ids or shell Ids (they differ only in their messages). */
  datatype IdKind = CustomerIds | ShellIds

  function Noun(kind: IdKind): string {
    match kind
    case CustomerIds => "account IDs"
    case ShellIds => "shell account IDs"
  }

  /** total_requested, valid_count and invalid_count. */
  datatype Counts = Counts(totalRequested: nat, validCount: nat, invalidCount: nat)

  /** The validation result; the counts are absent when there was nothing to validate. */
  datatype Validation = Validation(valid: seq<string>, invalid: seq<string>, counts: Option<Counts>)

  // ---------------------------------------------------------------------------
  // Specification

  /** The stripped Ids that pass the format check, in input order. */
  function FormatValid(ids: seq<string>): seq<string> {
    if ids == [] then []
    else
      var init := FormatValid(ids[..|ids| - 1]);
      var id := Strip(ids[|ids| - 1]);
      if IsValidIdFormat(id) then init + [id] else init
  }

  /** The stripped Ids that fail the format check, in input order. */
  function FormatInvalid(ids: seq<string>): seq<string> {
    if ids == [] then []
    else
      var init := FormatInvalid(ids[..|ids| - 1]);
      var id := Strip(ids[|ids| - 1]);
      if IsValidIdFormat(id) then init else init + [id]
  }

  /** The Id sent to Salesforce: the 18-character form of a 15-character Id. */
  function QueryId(id: string): string {
    if |id| == 15 then To18(id) else id
  }

  function QueryIds(vs: seq<string>): (qs: seq<string>)
    ensures |qs| == |vs| && forall i :: 0 <= i < |vs| ==> qs[i] == QueryId(vs[i])
  {
    seq(|vs|, i requires 0 <= i < |vs| => QueryId(vs[i]))
  }

  /** id_mapping: each query Id to its original; a later original overwrites an earlier one. */
  function IdMapping(vs: seq<string>): map<string, string> {
    if vs == [] then map[]
    else
      var last := vs[|vs| - 1];
      IdMapping(vs[..|vs| - 1])[QueryId(last) := last]
  }

  /** [id_mapping[q] for q in qs if q in found], or with `not in` when keep is false. */
  function Select(qs: seq<string>, found: set<string>, m: map<string, string>, keep: bool): seq<string>
    requires forall q :: q in qs ==> q in m
  {
    if qs == [] then []
    else
      var init := Select(qs[..|qs| - 1], found, m, keep);
      var q := qs[|qs| - 1];
      if (q in found) == keep then init + [m[q]] else init
  }

  /** The result of validating ids when the query finds the Ids in found. */
  function Validated(ids: seq<string>, found: set<string>): Validation {
    if ids == [] then Validation([], [], None)
    else
      var vs := FormatValid(ids);
      var qs := QueryIds(vs);
      var m := IdMapping(vs);
      MappingSpec(vs);
      var valid := Select(qs, found, m, true);
      var invalid := FormatInvalid(ids) + Select(qs, found, m, false);
      Validation(valid, invalid, Some(Counts(|ids|, |valid|, |invalid|)))
  }

  function Message(kind: IdKind, v: Validation): string {
    if v.counts.None? then "No account IDs to validate"
    else if v.invalid != [] then
      "Validation complete: " + NatToString(|v.valid|) + " valid, " + NatToString(|v.invalid|) + " invalid " + Noun(kind)
    else
      "All " + NatToString(|v.valid|) + " " + Noun(kind) + " are valid"
  }

  // ---------------------------------------------------------------------------
  // The validators

  /** The first loop of the validators: strip each Id and sort it by the format check. */
  method SplitByFormat(ids: seq<string>) returns (formatValidIds: seq<string>, formatInvalidIds: seq<string>)
    ensures formatValidIds == FormatValid(ids)
    ensures formatInvalidIds == FormatInvalid(ids)
  {
    formatValidIds, formatInvalidIds := [], [];
    for i := 0 to |ids|
      invariant formatValidIds == FormatValid(ids[..i])
      invariant formatInvalidIds == FormatInvalid(ids[..i])
    {
      FormatStep(ids, i);
      var originalId := Strip(ids[i]);
      if IsValidIdFormat(originalId) {
        formatValidIds := formatValidIds + [originalId];
      } else {
        formatInvalidIds := formatInvalidIds + [originalId];
      }
    }
    assert ids[..|ids|] == ids;
  }

  /** One more Id joins the format-valid or the format-invalid list, stripped. */
  lemma FormatStep(ids: seq<string>, i: nat)
    requires i < |ids|
    ensures var id := Strip(ids[i]);
            && FormatValid(ids[..i + 1]) == (if IsValidIdFormat(id) then FormatValid(ids[..i]) + [id] else FormatValid(ids[..i]))
            && FormatInvalid(ids[..i + 1]) == (if IsValidIdFormat(id) then FormatInvalid(ids[..i]) else FormatInvalid(ids[..i]) + [id])
  {
    assert ids[..i + 1][..i] == ids[..i];
  }

  /** The second loop of the validators: the query Ids and id_mapping. */
  method BuildQueryIds(formatValidIds: seq<string>) returns (queryAccountIds: seq<string>, idMapping: map<string, string>)
    ensures queryAccountIds == QueryIds(formatValidIds)
    ensures idMapping == IdMapping(formatValidIds)
  {
    queryAccountIds, idMapping := [], map[];
    for i := 0 to |formatValidIds|
      invariant queryAccountIds == QueryIds(formatValidIds[..i])
      invariant idMapping == IdMapping(formatValidIds[..i])
    {
      QueryStep(formatValidIds, i);
      var originalId := formatValidIds[i];
      var queryId;
      if |originalId| == 15 {
        queryId := Convert15To18(originalId);
      } else {
        queryId := originalId;
      }
      queryAccountIds := queryAccountIds + [queryId];
      idMapping := idMapping[queryId := originalId];
    }
    assert formatValidIds[..|formatValidIds|] == formatValidIds;
  }

  /** One more format-valid Id adds its query Id and its id_mapping entry. */
  lemma QueryStep(vs: seq<string>, i: nat)
    requires i < |vs|
    ensures QueryIds(vs[..i + 1]) == QueryIds(vs[..i]) + [QueryId(vs[i])]
    ensures IdMapping(vs[..i + 1]) == IdMapping(vs[..i])[QueryId(vs[i]) := vs[i]]
  {
    assert vs[..i + 1][..i] == vs[..i];
    assert forall k :: 0 <= k < i ==> vs[..i + 1][k] == vs[..i][k];
  }

  /** validate_customer_account_ids (kind CustomerIds) and
      validate_shell_account_ids (kind ShellIds), after a successful
      connection, with found the Ids the query returns. */
  method ValidateAccountIds(ids: seq<string>, found: set<string>, kind: IdKind) returns (result: Validation, message: string)
    ensures result == Validated(ids, found)
    ensures message == Message(kind, result)
  {
    if ids == [] {
      return Validation([], [], None), "No account IDs to validate";
    }
    var formatValidIds, formatInvalidIds := SplitByFormat(ids);
    var queryAccountIds, idMapping := BuildQueryIds(formatValidIds);
    MappingSpec(formatValidIds);
    var validAccountIds := Select(queryAccountIds, found, idMapping, true);
    var salesforceInvalidIds := Select(queryAccountIds, found, idMapping, false);
    var invalidAccountIds := formatInvalidIds + salesforceInvalidIds;
    result := Validation(validAccountIds, invalidAccountIds,
                         Some(Counts(|ids|, |validAccountIds|, |invalidAccountIds|)));
    message := Summarize(result, kind);
  }

  /** The closing message of the validators. */
  method Summarize(result: Validation, kind: IdKind) returns (message: string)
    requires result.counts.Some?
    ensures message == Message(kind, result)
  {
    var validAccountIds, invalidAccountIds := result.valid, result.invalid;
    if invalidAccountIds != [] {
      message := "Validation complete: " + NatToString(|validAccountIds|) + " valid, "
                 + NatToString(|invalidAccountIds|) + " invalid " + Noun(kind);
    } else {
      message := "All " + NatToString(|validAccountIds|) + " " + Noun(kind) + " are valid";
    }
  }

  // ---------------------------------------------------------------------------
  // Properties

  /** Every Id of vs passes the format check and is stripped. */
  predicate AllFormatValid(vs: seq<string>) {
    forall v :: v in vs ==> IsValidIdFormat(v) && Stripped(v) && v != []
  }

  /** No Id of vs passes the format check. */
  predicate NoneFormatValid(vs: seq<string>) {
    forall v :: v in vs ==> !IsValidIdFormat(v)
  }

  /** The last Id, stripped, joins the side its format check picks. */
  lemma FormatSnoc(ids: seq<string>)
    requires ids != []
    ensures var init, id := ids[..|ids| - 1], Strip(ids[|ids| - 1]);
      && FormatValid(ids) == FormatValid(init) + (if IsValidIdFormat(id) then [id] else [])
      && FormatInvalid(ids) == FormatInvalid(init) + (if IsValidIdFormat(id) then [] else [id])
  {
  }

  lemma AllFormatValidSnoc(vs: seq<string>, tail: seq<string>)
    requires AllFormatValid(vs) && AllFormatValid(tail)
    ensures AllFormatValid(vs + tail)
  {
    assert forall v :: v in vs + tail ==> v in vs || v in tail;
  }

  lemma NoneFormatValidSnoc(vs: seq<string>, tail: seq<string>)
    requires NoneFormatValid(vs) && NoneFormatValid(tail)
    ensures NoneFormatValid(vs + tail)
  {
    assert forall v :: v in vs + tail ==> v in vs || v in tail;
  }

  /** Every input Id, stripped, lands on exactly one side of the format check. */
  lemma {:induction false} FormatPartition(ids: seq<string>)
    ensures |FormatValid(ids)| + |FormatInvalid(ids)| == |ids|
    ensures AllFormatValid(FormatValid(ids))
    ensures NoneFormatValid(FormatInvalid(ids))
  {
    if ids != [] {
      var init := ids[..|ids| - 1];
      FormatPartition(init);
      FormatSnoc(ids);
      var id := Strip(ids[|ids| - 1]);
      var good: seq<string> := if IsValidIdFormat(id) then [id] else [];
      var bad: seq<string> := if IsValidIdFormat(id) then [] else [id];
      AllFormatValidSnoc(FormatValid(init), good);
      NoneFormatValidSnoc(FormatInvalid(init), bad);
    }
  }

  /** Every query Id has an original in id_mapping; that original is one of
      the format-valid Ids, maps to that very query Id, and is the last one
      that does. */
  lemma {:induction false} MappingSpec(vs: seq<string>)
    ensures forall q :: q in QueryIds(vs) <==> q in IdMapping(vs)
    ensures forall q :: q in IdMapping(vs) ==>
              exists i :: 0 <= i < |vs| && vs[i] == IdMapping(vs)[q] && QueryId(vs[i]) == q
                          && forall j :: i < j < |vs| ==> QueryId(vs[j]) != q
  {
    if vs != [] {
      var init, last := vs[..|vs| - 1], vs[|vs| - 1];
      MappingSpec(init);
      assert QueryIds(vs) == QueryIds(init) + [QueryId(last)];
      var m := IdMapping(vs);
      forall q | q in m
        ensures exists i :: 0 <= i < |vs| && vs[i] == m[q] && QueryId(vs[i]) == q
                            && forall j :: i < j < |vs| ==> QueryId(vs[j]) != q
      {
        if q == QueryId(last) {
          assert vs[|vs| - 1] == m[q];
        } else {
          assert q in IdMapping(init);
          var i :| 0 <= i < |init| && init[i] == IdMapping(init)[q] && QueryId(init[i]) == q
                   && forall j :: i < j < |init| ==> QueryId(init[j]) != q;
          assert vs[i] == init[i];
          forall j | i < j < |vs| ensures QueryId(vs[j]) != q {
            if j < |init| {
              assert vs[j] == init[j];
            }
          }
        }
      }
    }
  }

  /** The selected originals: those whose query Id is (or is not) in found. */
  lemma {:induction false} SelectSpec(qs: seq<string>, found: set<string>, m: map<string, string>, keep: bool)
    requires forall q :: q in qs ==> q in m
    ensures |Select(qs, found, m, true)| + |Select(qs, found, m, false)| == |qs|
    ensures forall v :: v in Select(qs, found, m, keep) ==>
              exists q :: q in qs && m[q] == v && (q in found) == keep
  {
    if qs != [] {
      var init, q := qs[..|qs| - 1], qs[|qs| - 1];
      assert forall x :: x in init ==> x in qs;
      SelectSpec(init, found, m, keep);
      SelectSpec(init, found, m, !keep);
    }
  }

  /** What validation reports for a non-empty list of Ids: the counts add up
      to the number requested; the format-invalid Ids come first, in input
      order; every Id reported valid passes the format check and its query
      Id was found; every other Id reported invalid passes the format check
      and its query Id was not found. */
  lemma ValidatedSpec(ids: seq<string>, found: set<string>)
    requires ids != []
    ensures var v := Validated(ids, found);
            && v.counts == Some(Counts(|ids|, |v.valid|, |v.invalid|))
            && |v.valid| + |v.invalid| == |ids|
            && v.invalid[..|FormatInvalid(ids)|] == FormatInvalid(ids)
            && (forall x :: x in v.valid ==> IsValidIdFormat(x) && QueryId(x) in found)
            && (forall x :: x in v.invalid[|FormatInvalid(ids)|..] ==> IsValidIdFormat(x) && QueryId(x) !in found)
  {
    var vs := FormatValid(ids);
    var qs := QueryIds(vs);
    var m := IdMapping(vs);
    var v := Validated(ids, found);
    FormatPartition(ids);
    MappingSpec(vs);
    SelectSpec(qs, found, m, true);
    SelectSpec(qs, found, m, false);
    var missing := Select(qs, found, m, false);
    assert v.invalid == FormatInvalid(ids) + missing;
    assert v.invalid[|FormatInvalid(ids)|..] == missing;
    forall x | x in v.valid ensures IsValidIdFormat(x) && QueryId(x) in found {
      var q :| q in qs && m[q] == x && q in found;
      MappedBack(vs, q);
    }
    forall x | x in missing ensures IsValidIdFormat(x) && QueryId(x) !in found {
      var q :| q in qs && m[q] == x && q !in found;
      MappedBack(vs, q);
    }
  }

  /** Conversely, every query Id whose presence in found is as asked has its
      original selected. */
  lemma {:induction false} SelectComplete(qs: seq<string>, found: set<string>, m: map<string, string>, keep: bool)
    requires forall q :: q in qs ==> q in m
    ensures forall q :: q in qs && (q in found) == keep ==> m[q] in Select(qs, found, m, keep)
  {
    if qs != [] {
      var init := qs[..|qs| - 1];
      assert forall x :: x in init ==> x in qs;
      assert forall x :: x in qs ==> x in init || x == qs[|qs| - 1];
      SelectComplete(init, found, m, keep);
    }
  }

  /** What validation leaves out of neither list: every format-valid Id whose
      query Id was found has its original (the last Id with that query Id)
      reported valid, and every one whose query Id was not found has it
      reported Salesforce-invalid. */
  lemma ValidatedComplete(ids: seq<string>, found: set<string>)
    ensures var v := Validated(ids, found);
            var vs := FormatValid(ids);
            forall x :: x in vs ==>
              && QueryId(x) in IdMapping(vs)
              && (QueryId(x) in found ==> IdMapping(vs)[QueryId(x)] in v.valid)
              && (QueryId(x) !in found ==> IdMapping(vs)[QueryId(x)] in v.invalid[|FormatInvalid(ids)|..])
  {
    var vs := FormatValid(ids);
    if ids == [] {
      assert vs == [];
    } else {
      var v := Validated(ids, found);
      SelectAll(vs, found, true);
      SelectAll(vs, found, false);
      assert v.invalid[|FormatInvalid(ids)|..] == Select(QueryIds(vs), found, IdMapping(vs), false);
    }
  }

  lemma SelectAll(vs: seq<string>, found: set<string>, keep: bool)
    ensures forall x :: x in vs ==> QueryId(x) in IdMapping(vs)
    ensures forall q :: q in QueryIds(vs) ==> q in IdMapping(vs)
    ensures forall x :: x in vs && (QueryId(x) in found) == keep ==>
              IdMapping(vs)[QueryId(x)] in Select(QueryIds(vs), found, IdMapping(vs), keep)
  {
    var qs := QueryIds(vs);
    var m := IdMapping(vs);
    MappingSpec(vs);
    forall x | x in vs ensures QueryId(x) in qs {
      var i :| 0 <= i < |vs| && vs[i] == x;
      assert qs[i] == QueryId(x);
    }
    SelectComplete(qs, found, m, keep);
  }

  /** When no two format-valid Ids share a query Id, no Id is lost: each
      format-valid Id itself is reported valid when its query Id was found
      and Salesforce-invalid when it was not. */
  lemma EveryOriginalReported(ids: seq<string>, found: set<string>)
    requires var vs := FormatValid(ids);
             forall i, j :: 0 <= i < j < |vs| ==> QueryId(vs[i]) != QueryId(vs[j])
    ensures var v := Validated(ids, found);
            forall x :: x in FormatValid(ids) ==>
              && (QueryId(x) in found ==> x in v.valid)
              && (QueryId(x) !in found ==> x in v.invalid[|FormatInvalid(ids)|..])
  {
    var vs := FormatValid(ids);
    ValidatedComplete(ids, found);
    DistinctQueriesKeepOriginals(vs);
    forall x | x in vs ensures IdMapping(vs)[QueryId(x)] == x {
      var i :| 0 <= i < |vs| && vs[i] == x;
    }
  }

  /** The original a query Id maps to is a format-valid Id with that query Id. */
  lemma MappedBack(vs: seq<string>, q: string)
    requires q in QueryIds(vs)
    ensures q in IdMapping(vs) && IdMapping(vs)[q] in vs && QueryId(IdMapping(vs)[q]) == q
  {
    MappingSpec(vs);
    var i :| 0 <= i < |vs| && vs[i] == IdMapping(vs)[q] && QueryId(vs[i]) == q
             && forall j :: i < j < |vs| ==> QueryId(vs[j]) != q;
  }

  /** Validation of a non-empty list reports every Id valid, and says so
      with the number requested, exactly when no Id is invalid. */
  lemma AllValidMessage(ids: seq<string>, found: set<string>, kind: IdKind)
    requires ids != [] && Validated(ids, found).invalid == []
    ensures Message(kind, Validated(ids, found)) == "All " + NatToString(|ids|) + " " + Noun(kind) + " are valid"
  {
    var v := Validated(ids, found);
    ValidatedSpec(ids, found);
    assert |v.valid| == |ids|;
  }

  /** When no two format-valid Ids share a query Id, id_mapping sends each
      one's query Id back to that very Id. */
  lemma DistinctQueriesKeepOriginals(vs: seq<string>)
    requires forall i, j :: 0 <= i < j < |vs| ==> QueryId(vs[i]) != QueryId(vs[j])
    ensures forall i :: 0 <= i < |vs| ==> QueryId(vs[i]) in IdMapping(vs) && IdMapping(vs)[QueryId(vs[i])] == vs[i]
  {
    MappingSpec(vs);
    forall i | 0 <= i < |vs| ensures QueryId(vs[i]) in IdMapping(vs) && IdMapping(vs)[QueryId(vs[i])] == vs[i] {
      var q := QueryId(vs[i]);
      assert q in QueryIds(vs);
      var k :| 0 <= k < |vs| && vs[k] == IdMapping(vs)[q] && QueryId(vs[k]) == q
               && forall j :: k < j < |vs| ==> QueryId(vs[j]) != q;
    }
  }

  /** The format check keeps a valid stripped 15-character Id and its 18-character form. */
  lemma FormatPair(x: string)
    requires |x| == 15 && Stripped(x) && IsValidIdFormat(x)
    ensures FormatValid([x, To18(x)]) == [x, To18(x)] && FormatInvalid([x, To18(x)]) == []
  {
    var y := To18(x);
    ValidTo18(x);
    To18Stripped(x);
    StripKeeps(x);
    StripKeeps(y);
    var ids := [x, y];
    assert ids[..1] == [x];
    assert FormatValid([x]) == [x] && FormatInvalid([x]) == [];
  }

  /** Both Ids query the 18-character form, which maps back to itself. */
  lemma MappingPair(x: string)
    requires |x| == 15
    ensures QueryIds([x, To18(x)]) == [To18(x), To18(x)]
    ensures To18(x) in IdMapping([x, To18(x)]) && IdMapping([x, To18(x)])[To18(x)] == To18(x)
  {
    var y := To18(x);
    To18Shape(x);
    assert [x, y][..1] == [x];
  }

  /** Selecting from a query list of one Id, twice. */
  lemma SelectTwice(y: string, found: set<string>, m: map<string, string>)
    requires y in m && m[y] == y
    ensures Select([y, y], found, m, true) + Select([y, y], found, m, false) == [y, y]
  {
    assert [y, y][..1] == [y] && [y][..0] == [];
    assert Select([y], found, m, true) == (if y in found then [y] else []);
    assert Select([y], found, m, false) == (if y in found then [] else [y]);
  }

  /** A 15-character Id followed by its own 18-character form share a query
      Id, so the later original overwrites the earlier one in id_mapping and
      both are reported as the 18-character form. */
  lemma LaterOriginalWins(x: string, found: set<string>)
    requires |x| == 15 && Stripped(x) && IsValidIdFormat(x)
    ensures var v := Validated([x, To18(x)], found);
            v.valid + v.invalid == [To18(x), To18(x)]
  {
    var y := To18(x);
    FormatPair(x);
    MappingPair(x);
    SelectTwice(y, found, IdMapping([x, y]));
  }

  // ---------------------------------------------------------------------------
  // The bad-domain filter

  /** The Bad_Domain flag: the verdict and explanation of the bad-domain check. */
  datatype BadDomain = BadDomain(isBad: bool, explanation: string)

  /** A customer account with its Bad_Domain flag attached. */
  datatype FlaggedAccount = FlaggedAccount(account: Customer, badDomain: BadDomain)

  /** Every account with its flag, in input order. */
  function WithFlags(accounts: seq<Customer>, check: Customer -> BadDomain): (r: seq<FlaggedAccount>)
    ensures |r| == |accounts|
    ensures forall i :: 0 <= i < |r| ==> r[i] == FlaggedAccount(accounts[i], check(accounts[i]))
  {
    seq(|accounts|, i requires 0 <= i < |accounts| => FlaggedAccount(accounts[i], check(accounts[i])))
  }

  /** The flagged accounts whose verdict is bad (bad true) or clean (bad false), in order. */
  function WithVerdict(xs: seq<FlaggedAccount>, bad: bool): seq<FlaggedAccount> {
    if xs == [] then []
    else
      var init := WithVerdict(xs[..|xs| - 1], bad);
      var x := xs[|xs| - 1];
      if x.badDomain.isBad == bad then init + [x] else init
  }

  /** filter_customer_accounts_by_bad_domains, with check the bad-domain service. */
  method FilterByBadDomains(accounts: seq<Customer>, check: Customer -> BadDomain)
    returns (clean: seq<FlaggedAccount>, flagged: seq<FlaggedAccount>)
    ensures clean == WithVerdict(WithFlags(accounts, check), false)
    ensures flagged == WithVerdict(WithFlags(accounts, check), true)
  {
    clean, flagged := [], [];
    ghost var tagged := WithFlags(accounts, check);
    for i := 0 to |accounts|
      invariant clean == WithVerdict(tagged[..i], false)
      invariant flagged == WithVerdict(tagged[..i], true)
    {
      assert tagged[..i + 1][..i] == tagged[..i];
      var badDomainResult := check(accounts[i]);
      var accountWithFlag := FlaggedAccount(accounts[i], badDomainResult);
      if badDomainResult.isBad {
        flagged := flagged + [accountWithFlag];
      } else {
        clean := clean + [accountWithFlag];
      }
    }
    assert tagged[..|accounts|] == tagged;
  }

  /** The split is a partition: together the clean and flagged lists hold
      every flagged account exactly once, and each side holds only its verdict. */
  lemma {:induction false} VerdictPartition(xs: seq<FlaggedAccount>)
    ensures multiset(WithVerdict(xs, false)) + multiset(WithVerdict(xs, true)) == multiset(xs)
    ensures forall x :: x in WithVerdict(xs, false) ==> !x.badDomain.isBad
    ensures forall x :: x in WithVerdict(xs, true) ==> x.badDomain.isBad
  {
    if xs != [] {
      var init := xs[..|xs| - 1];
      VerdictPartition(init);
      assert xs == init + [xs[|xs| - 1]];
    }
  }

  /** Each account is kept with the verdict the check gives it, on the side
      that verdict names. */
  lemma FilterSpec(accounts: seq<Customer>, check: Customer -> BadDomain)
    ensures |WithVerdict(WithFlags(accounts, check), false)| + |WithVerdict(WithFlags(accounts, check), true)| == |accounts|
    ensures forall x :: x in WithVerdict(WithFlags(accounts, check), true) ==>
              x.account in accounts && x.badDomain == check(x.account) && x.badDomain.isBad
    ensures forall x :: x in WithVerdict(WithFlags(accounts, check), false) ==>
              x.account in accounts && x.badDomain == check(x.account) && !x.badDomain.isBad
  {
    var tagged := WithFlags(accounts, check);
    VerdictPartition(tagged);
    assert |multiset(tagged)| == |accounts|;
    forall x | x in WithVerdict(tagged, true) || x in WithVerdict(tagged, false)
      ensures x.account in accounts && x.badDomain == check(x.account)
    {
      assert x in multiset(tagged);
      var i :| 0 <= i < |tagged| && tagged[i] == x;
    }
  }
}
