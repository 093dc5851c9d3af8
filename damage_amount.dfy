/**
  extract_large_number, nested in get_insurance_total: the damage amount in a
  line of an accident report. A line that says "없음" (none) gives "0";
  otherwise the result is the first match of the pattern `[\d,]+(?=\s*원)`,
  a run of digits and commas followed by optional blanks and the won sign,
  or "0" when nothing matches.
 */
module DamageAmount {
  import opened Wrappers
  import opened Text

  /** The word the report uses for "none". */
  const NoDamage: string := "없음"

  /** The won sign that ends an amount. */
  const Won: char := '원'

  /** `[\d,]`: a digit or a comma. */
  predicate IsAmountChar(c: char) { IsDigit(c) || c == ',' }

  /** The lookahead `(?=\s*원)` holds at index e. */
  ghost predicate WonAhead(s: string, e: int)
  {
    0 <= e <= |s| && exists j :: e <= j < |s| && s[j] == Won && forall k :: e <= k < j ==> IsSpace(s[k])
  }

  /** The pattern matches s[p..e]: a non-empty run of digits and commas, then the lookahead. */
  ghost predicate MatchAt(s: string, p: int, e: int)
  {
    0 <= p < e <= |s| && (forall k :: p <= k < e ==> IsAmountChar(s[k])) && WonAhead(s, e)
  }

  /**
    s[p..e] is the first match a regular-expression search starting at index i
    reports: the leftmost start at or after i, and there the longest run, which
    the greedy `+` tries first.
   */
  ghost predicate FirstMatchFrom(s: string, i: int, p: int, e: int)
  {
    && i <= p
    && MatchAt(s, p, e)
    && (forall p', e' :: i <= p' < p && p' < e' <= |s| ==> !MatchAt(s, p', e'))
    && (forall e' :: e < e' <= |s| ==> !MatchAt(s, p, e'))
  }

  /** The index of the first non-blank at or after j. */
  function SkipSpaces(s: string, j: nat): (k: nat)
    requires j <= |s|
    ensures j <= k <= |s| && (forall i :: j <= i < k ==> IsSpace(s[i])) && (k == |s| || !IsSpace(s[k]))
    decreases |s| - j
  {
    if j < |s| && IsSpace(s[j]) then SkipSpaces(s, j + 1) else j
  }

  /** The end of the run of digits and commas that starts at i. */
  function RunEnd(s: string, i: nat): (e: nat)
    requires i <= |s|
    ensures i <= e <= |s| && (forall k :: i <= k < e ==> IsAmountChar(s[k])) && (e == |s| || !IsAmountChar(s[e]))
    decreases |s| - i
  {
    if i < |s| && IsAmountChar(s[i]) then RunEnd(s, i + 1) else i
  }

  /** The lookahead, computed: skip the blanks and look for the won sign. */
  function WonFollows(s: string, e: nat): (b: bool)
    requires e <= |s|
    ensures b <==> WonAhead(s, e)
  {
    var k := SkipSpaces(s, e);
    assert WonAhead(s, e) ==> k < |s| && s[k] == Won by {
      if WonAhead(s, e) {
        var j :| e <= j < |s| && s[j] == Won && forall m :: e <= m < j ==> IsSpace(s[m]);
        assert !IsSpace(s[j]) && k <= j;
        assert k == j;
      }
    }
    k < |s| && s[k] == Won
  }

  /** The lookahead fails where a digit or a comma stands: it is neither a blank nor the won sign. */
  lemma NoWonAheadAtAmount(s: string, e: int)
    requires 0 <= e < |s| && IsAmountChar(s[e])
    ensures !WonAhead(s, e)
  {
    forall j | e <= j < |s| && s[j] == Won
      ensures exists k :: e <= k < j && !IsSpace(s[k])
    {
      assert e < j && !IsSpace(s[e]);
    }
  }

  /** Where the lookahead holds, the character there (if any) is not a digit or a comma. */
  lemma WonAheadNotAmount(s: string, e: int)
    requires WonAhead(s, e) && e < |s|
    ensures !IsAmountChar(s[e])
  {
    var j :| e <= j < |s| && s[j] == Won && forall k :: e <= k < j ==> IsSpace(s[k]);
    if e < j {
      assert IsSpace(s[e]);
    }
  }

  /** The end of a maximal run is where RunEnd stops. */
  lemma {:induction false} RunEndAt(s: string, p: nat, e: nat)
    requires p <= e <= |s| && (forall k :: p <= k < e ==> IsAmountChar(s[k]))
    requires e == |s| || !IsAmountChar(s[e])
    ensures RunEnd(s, p) == e
    decreases e - p
  {
    if p < e {
      RunEndAt(s, p + 1, e);
    }
  }

  /**
    The search behind `re.findall(...)[0]`, from index i: at a digit or comma
    take the whole run and accept it if the won sign follows; otherwise resume
    after the run. Starts inside a rejected run cannot match either, since the
    same run follows them.
   */
  function FindAmount(s: string, i: nat): (m: Option<(nat, nat)>)
    requires i <= |s|
    ensures m.Some? ==> FirstMatchFrom(s, i, m.value.0, m.value.1)
    ensures m.None? ==> forall p, e :: i <= p < e <= |s| ==> !MatchAt(s, p, e)
    decreases |s| - i
  {
    if i == |s| then None
    else if !IsAmountChar(s[i]) then
      FindAmount(s, i + 1)
    else
      var e := RunEnd(s, i);
      assert forall e' :: e < e' <= |s| ==> !MatchAt(s, i, e') by {
        forall e' | e < e' <= |s| ensures !MatchAt(s, i, e') {
          assert !IsAmountChar(s[e]);
        }
      }
      if WonFollows(s, e) then
        Some((i, e))
      else
        assert forall p', e' :: i <= p' < e && p' < e' <= |s| ==> !MatchAt(s, p', e') by {
          forall p', e' | i <= p' < e && p' < e' <= |s| ensures !MatchAt(s, p', e') {
            if e' < e {
              NoWonAheadAtAmount(s, e');
            } else if e < e' {
              assert !IsAmountChar(s[e]);
            }
          }
        }
        FindAmount(s, e)
  }

  /**
    extract_large_number: "0" when the text says "없음" anywhere, else the first
    match of the amount pattern, else "0". The result is never empty and holds
    only digits and commas, exactly as they appear in the text.
   */
  function ExtractLargeNumber(text: string): (r: string)
    ensures Contains(text, NoDamage) ==> r == "0"
    ensures !Contains(text, NoDamage) && (exists p, e :: MatchAt(text, p, e)) ==>
      exists p, e :: FirstMatchFrom(text, 0, p, e) && r == text[p..e]
    ensures (forall p, e :: !MatchAt(text, p, e)) ==> r == "0"
    ensures |r| > 0 && forall k :: 0 <= k < |r| ==> IsAmountChar(r[k])
  {
    if Contains(text, NoDamage) then "0"
    else
      match FindAmount(text, 0)
      case Some((p, e)) => text[p..e]
      case None => "0"
  }

  /**
    The match returned is a maximal run: the characters just before and just
    after it are not digits or commas.
   */
  lemma FirstMatchIsMaximal(s: string, p: int, e: int)
    requires FirstMatchFrom(s, 0, p, e)
    ensures p == 0 || !IsAmountChar(s[p - 1])
    ensures e == |s| || !IsAmountChar(s[e])
  {
    if e < |s| {
      WonAheadNotAmount(s, e);
    }
    if p > 0 {
      assert !MatchAt(s, p - 1, e);
    }
  }

  /** A run that is not followed by blanks and the won sign is never the result, even when it comes first. */
  lemma UnmarkedRunSkipped(text: string, p: nat, e: nat)
    requires 0 <= p < e <= |text| && (forall k :: p <= k < e ==> IsAmountChar(text[k]))
    requires e == |text| || !IsAmountChar(text[e])
    requires !WonAhead(text, e)
    ensures forall q, f :: FirstMatchFrom(text, 0, q, f) ==> q != p
  {
    RunEndAt(text, p, e);
    forall q, f | FirstMatchFrom(text, 0, q, f) ensures q != p {
      FirstMatchIsMaximal(text, q, f);
      RunEndAt(text, q, f);
    }
  }
}
