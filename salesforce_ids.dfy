/**
 * Salesforce record Ids. A 15-character Id is case-sensitive; its
 * 18-character form appends three checksum characters, one per 5-character
 * chunk, that encode which characters of the chunk are upper-case.
 */
module SalesforceIds {
  import opened Ascii

  function Pow2(j: nat): (p: nat)
    ensures p >= 1
  {
    if j == 0 then 1 else 2 * Pow2(j - 1)
  }

  /** The chunk value: bit j is set when character j is upper-case. */
  function ChunkValue(chunk: string): (v: nat)
    ensures v < Pow2(|chunk|)
  {
    if chunk == [] then 0
    else
      var n := |chunk| - 1;
      ChunkValue(chunk[..n]) + (if IsUpper(chunk[n]) then Pow2(n) else 0)
  }

  /** The checksum text of a chunk value: 'A'..'Z' for 0..25, then str(v - 26). */
  function SuffixText(v: nat): string {
    if v < 26 then [('A' as int + v) as char] else NatToString(v - 26)
  }

  /** The checksum text of the first i chunks of id. */
  function SuffixUpTo(id: string, i: nat): string
    requires |id| == 15 && i <= 3
  {
    if i == 0 then "" else SuffixUpTo(id, i - 1) + SuffixText(ChunkValue(id[(i - 1) * 5..i * 5]))
  }

  /** _convert_15_to_18_char_id as a function: the three checksum characters
      are appended to a 15-character Id; any other Id is returned unchanged. */
  function To18(id: string): string {
    if |id| != 15 then id else id + SuffixUpTo(id, 3)
  }

  /** _convert_15_to_18_char_id: two nested loops accumulate the chunk values
      and the suffix. */
  method Convert15To18(id15: string) returns (r: string)
    ensures r == To18(id15)
  {
    if |id15| != 15 {
      return id15;
    }
    var suffix := "";
    for i := 0 to 3
      invariant suffix == SuffixUpTo(id15, i)
    {
      var chunk := id15[i * 5..(i + 1) * 5];
      var chunkValue := 0;
      var power := 1;
      for j := 0 to |chunk|
        invariant chunkValue == ChunkValue(chunk[..j])
        invariant power == Pow2(j)
      {
        assert chunk[..j + 1][..j] == chunk[..j];
        if IsUpper(chunk[j]) {
          chunkValue := chunkValue + power;
        }
        power := 2 * power;
      }
      assert chunk[..|chunk|] == chunk;
      if chunkValue < 26 {
        suffix := suffix + [('A' as int + chunkValue) as char];
      } else {
        suffix := suffix + NatToString(chunkValue - 26);
      }
    }
    return id15 + suffix;
  }

  /** _convert_18_to_15_char_id: an 18-character Id loses its checksum; any
      other Id is returned unchanged. */
  function To15(id: string): (r: string)
    ensures |id| == 18 ==> r == id[..15]
    ensures |id| != 18 ==> r == id
  {
    if |id| == 15 then id else if |id| == 18 then id[..15] else id
  }

  /** _are_same_account_id. */
  predicate SameAccountId(id1: string, id2: string) {
    id1 != [] && id2 != [] && To15(Strip(id1)) == To15(Strip(id2))
  }

  /** _is_valid_salesforce_id_format. */
  predicate IsValidIdFormat(id: string) {
    if id == [] then false
    else
      var s := Strip(id);
      (|s| == 15 || |s| == 18) && AllAlnum(s) && StartsWith(s, "001")
  }

  // ---------------------------------------------------------------------------
  // Properties

  /** Every checksum text is one character, in 'A'..'Z' or '0'..'5'. */
  lemma SuffixTextRange(v: nat)
    requires v < 32
    ensures |SuffixText(v)| == 1
    ensures 'A' <= SuffixText(v)[0] <= 'Z' || '0' <= SuffixText(v)[0] <= '5'
  {
    if v >= 26 {
      assert NatToString(v - 26) == [DigitChar(v - 26)];
    }
  }

  /** Distinct chunk values give distinct checksum characters. */
  lemma SuffixTextInjective(v: nat, w: nat)
    requires v < 32 && w < 32 && SuffixText(v) == SuffixText(w)
    ensures v == w
  {
    SuffixTextRange(v);
    SuffixTextRange(w);
    if v >= 26 {
      assert NatToString(v - 26) == [DigitChar(v - 26)];
    }
    if w >= 26 {
      assert NatToString(w - 26) == [DigitChar(w - 26)];
    }
    assert SuffixText(v)[0] == SuffixText(w)[0];
  }

  /** Two chunks of the same length have the same case pattern. */
  predicate SameCase(a: string, b: string) {
    |a| == |b| && forall j :: 0 <= j < |a| ==> (IsUpper(a[j]) <==> IsUpper(b[j]))
  }

  /** The chunk value encodes exactly the case pattern of the chunk. */
  lemma {:induction false} ChunkValueCase(a: string, b: string)
    requires |a| == |b|
    ensures ChunkValue(a) == ChunkValue(b) <==> SameCase(a, b)
  {
    if a != [] {
      var n := |a| - 1;
      ChunkValueCase(a[..n], b[..n]);
      var va, vb := ChunkValue(a[..n]), ChunkValue(b[..n]);
      if ChunkValue(a) == ChunkValue(b) {
        assert IsUpper(a[n]) <==> IsUpper(b[n]);
        assert va == vb;
        forall j | 0 <= j < |a| ensures IsUpper(a[j]) <==> IsUpper(b[j]) {
          if j < n {
            assert a[..n][j] == a[j] && b[..n][j] == b[j];
          }
        }
      }
      if SameCase(a, b) {
        assert SameCase(a[..n], b[..n]);
      }
    }
  }

  lemma SuffixUpToLength(id: string, i: nat)
    requires |id| == 15 && i <= 3
    ensures |SuffixUpTo(id, i)| == i
  {
    if i > 0 {
      SuffixUpToLength(id, i - 1);
      SuffixTextRange(ChunkValue(id[(i - 1) * 5..i * 5]));
    }
  }

  /** The checksum of a 15-character Id, chunk by chunk. */
  lemma SuffixChunks(id: string)
    requires |id| == 15
    ensures SuffixUpTo(id, 3) == SuffixText(ChunkValue(id[0..5])) + SuffixText(ChunkValue(id[5..10])) + SuffixText(ChunkValue(id[10..15]))
  {
    assert SuffixUpTo(id, 1) == SuffixText(ChunkValue(id[0..5]));
  }

  /** A 15-character Id becomes an 18-character Id that begins with it, and
      each checksum character is a letter or one of the digits 0 to 5. */
  lemma To18Shape(id: string)
    requires |id| == 15
    ensures |To18(id)| == 18 && To18(id)[..15] == id
    ensures forall k :: 15 <= k < 18 ==> 'A' <= To18(id)[k] <= 'Z' || '0' <= To18(id)[k] <= '5'
  {
    var c0, c1, c2 := id[0..5], id[5..10], id[10..15];
    SuffixTextRange(ChunkValue(c0));
    SuffixTextRange(ChunkValue(c1));
    SuffixTextRange(ChunkValue(c2));
    SuffixChunks(id);
  }

  /** Three checksum texts agree exactly when the three chunk values do. */
  lemma SuffixTextsEqual(a0: nat, a1: nat, a2: nat, b0: nat, b1: nat, b2: nat)
    requires a0 < 32 && a1 < 32 && a2 < 32 && b0 < 32 && b1 < 32 && b2 < 32
    ensures SuffixText(a0) + SuffixText(a1) + SuffixText(a2) == SuffixText(b0) + SuffixText(b1) + SuffixText(b2)
            <==> a0 == b0 && a1 == b1 && a2 == b2
  {
    SuffixTextRange(a0); SuffixTextRange(a1); SuffixTextRange(a2);
    SuffixTextRange(b0); SuffixTextRange(b1); SuffixTextRange(b2);
    var sa := SuffixText(a0) + SuffixText(a1) + SuffixText(a2);
    var sb := SuffixText(b0) + SuffixText(b1) + SuffixText(b2);
    if sa == sb {
      assert SuffixText(a0) == sa[0..1] == sb[0..1] == SuffixText(b0);
      assert SuffixText(a1) == sa[1..2] == sb[1..2] == SuffixText(b1);
      assert SuffixText(a2) == sa[2..3] == sb[2..3] == SuffixText(b2);
      SuffixTextInjective(a0, b0);
      SuffixTextInjective(a1, b1);
      SuffixTextInjective(a2, b2);
    }
  }

  /** Two 15-character Ids get the same checksum exactly when each of their
      three chunks has the same case pattern. */
  lemma ChecksumCase(a: string, b: string)
    requires |a| == 15 && |b| == 15
    ensures To18(a)[15..] == To18(b)[15..] <==>
            SameCase(a[0..5], b[0..5]) && SameCase(a[5..10], b[5..10]) && SameCase(a[10..15], b[10..15])
  {
    assert Pow2(5) == 32;
    SuffixChunks(a);
    SuffixChunks(b);
    assert To18(a)[15..] == SuffixUpTo(a, 3);
    assert To18(b)[15..] == SuffixUpTo(b, 3);
    SuffixTextsEqual(ChunkValue(a[0..5]), ChunkValue(a[5..10]), ChunkValue(a[10..15]),
                     ChunkValue(b[0..5]), ChunkValue(b[5..10]), ChunkValue(b[10..15]));
    ChunkValueCase(a[0..5], b[0..5]);
    ChunkValueCase(a[5..10], b[5..10]);
    ChunkValueCase(a[10..15], b[10..15]);
  }

  /** Truncating the 18-character form of a 15-character Id gives back the Id. */
  lemma RoundTrip(id: string)
    requires |id| == 15
    ensures To15(To18(id)) == id
  {
    To18Shape(id);
  }

  /** Id equivalence is symmetric and never holds for an empty Id. */
  lemma SameAccountIdSymmetric(id1: string, id2: string)
    ensures SameAccountId(id1, id2) == SameAccountId(id2, id1)
    ensures id1 == [] || id2 == [] ==> !SameAccountId(id1, id2)
  {
  }

  /** A checksum character is never whitespace, so the 18-character form of a
      stripped Id is itself stripped. */
  lemma To18Stripped(id: string)
    requires |id| == 15 && Stripped(id)
    ensures Stripped(To18(id))
  {
    To18Shape(id);
    var r := To18(id);
    assert r[0] == r[..15][0] == id[0];
  }

  /** For stripped Ids, equivalence is equality of the 15-character forms. */
  lemma SameStrippedIds(id1: string, id2: string)
    requires id1 != [] && id2 != [] && Stripped(id1) && Stripped(id2)
    ensures SameAccountId(id1, id2) <==> To15(id1) == To15(id2)
  {
    StripKeeps(id1);
    StripKeeps(id2);
  }

  /** A stripped 15-character Id and its 18-character form are the same account. */
  lemma SameAs18(id: string)
    requires |id| == 15 && Stripped(id)
    ensures SameAccountId(id, To18(id))
  {
    To18Shape(id);
    To18Stripped(id);
    RoundTrip(id);
    SameStrippedIds(id, To18(id));
  }

  /** For a stripped Id the format check needs no stripping. */
  lemma ValidStripped(id: string)
    requires id != [] && Stripped(id)
    ensures IsValidIdFormat(id) <==> (|id| == 15 || |id| == 18) && AllAlnum(id) && StartsWith(id, "001")
  {
    StripKeeps(id);
  }

  /** The 18-character form of a valid stripped 15-character Id is valid. */
  lemma ValidTo18(id: string)
    requires |id| == 15 && Stripped(id) && IsValidIdFormat(id)
    ensures IsValidIdFormat(To18(id))
  {
    To18Shape(id);
    To18Stripped(id);
    ValidStripped(id);
    var r := To18(id);
    ValidStripped(r);
    forall k | 0 <= k < 18 ensures IsAlnum(r[k]) {
      if k < 15 {
        assert r[k] == r[..15][k];
      }
    }
    assert r[..3] == r[..15][..3];
  }
}
