/**
 * The save path of the front sheet page (src/pages/FrontSheet.tsx,
 * `handleSave`): the revision bump of the quote number and the record handed
 * to `saveEstimate`. The route's `id`, the "save as new number" flag and the
 * current time are parameters.
 */
module FrontSheet {
  import opened Wrappers
  import opened Decimal
  import opened JsStrings
  import opened EstimateTypes
  import opened EstimateRules
  import opened QuoteNumbers

  // ------------------------------------------------------------ revision bump

  /** `/R\d+$/` matches at `i`: an 'R' followed by one or more digits up to the end. */
  predicate RevisionSuffixAt(q: string, i: int) {
    0 <= i && i + 1 < |q| && q[i] == 'R' && AllDigits(q[i + 1..])
  }

  /** The leftmost position at or after `from` where `/R\d+$/` matches. */
  function FindRevisionSuffix(q: string, from: nat): (r: Option<nat>)
    ensures r.Some? ==> from <= r.value && RevisionSuffixAt(q, r.value)
    ensures r.Some? ==> forall j :: from <= j < r.value ==> !RevisionSuffixAt(q, j)
    ensures r.None? ==> forall j :: from <= j ==> !RevisionSuffixAt(q, j)
    decreases |q| - from
  {
    if from + 1 >= |q| then None
    else if RevisionSuffixAt(q, from) then Some(from)
    else FindRevisionSuffix(q, from + 1)
  }

  /** `parseInt(…) + 1`, where NaN stays NaN. */
  function Increment(n: Option<int>): Option<int> {
    if n.Some? then Some(n.value + 1) else None
  }

  /** `q.split('R')[1] || '0'`: the text after the first 'R' up to the next, or "0" when that is empty. */
  function RevisionText(q: string): string {
    var piece := SplitPart(q, 'R', 1);
    if piece.None? || piece.value == "" then "0" else piece.value
  }

  /**
   * The quote number a revision save would write: `X` without an 'R' becomes
   * `XR1`; otherwise a trailing `R<digits>` is replaced by `R` and one more
   * than the number after the FIRST 'R' (0 when that text is empty), and a
   * quote number without such a suffix is kept.
   */
  function NextRevisionNumber(q: string): (r: string)
    ensures !Includes(q, 'R') ==> r == q + "R1"
    ensures Includes(q, 'R') && FindRevisionSuffix(q, 0).None? ==> r == q
  {
    if !Includes(q, 'R') then q + "R1"
    else
      match FindRevisionSuffix(q, 0)
      case None => q
      case Some(i) => q[..i] + "R" + RenderNumber(Increment(ParseInt(RevisionText(q))))
  }

  /** In `p + "R" + d` with digits `d` and no 'R' in `p`, the suffix starts at the only 'R'. */
  lemma {:induction false} SuffixOfSingleRevision(p: string, d: string)
    requires !Includes(p, 'R')
    requires d != [] && AllDigits(d)
    ensures FindRevisionSuffix(p + "R" + d, 0) == Some(|p|)
  {
    var q := p + "R" + d;
    assert q[|p| + 1..] == d;
    assert RevisionSuffixAt(q, |p|);
    forall j | 0 <= j < |p| ensures !RevisionSuffixAt(q, j) {
      assert q[j] == p[j];
    }
  }

  /** The text after the only 'R' of `p + "R" + d` is `d`. */
  lemma {:induction false} TextOfSingleRevision(p: string, d: string)
    requires !Includes(p, 'R')
    requires d != [] && AllDigits(d)
    ensures RevisionText(p + "R" + d) == d
  {
    DigitsHaveNoR(d);
    assert p + "R" + d == p + ['R'] + d;
    SplitAtOnlySeparator(p, 'R', d);
  }

  /** Where the suffix is found, the result is the text before it, 'R' and the incremented number. */
  lemma {:induction false} NextRevisionAt(q: string, k: nat, text: string)
    requires FindRevisionSuffix(q, 0) == Some(k)
    requires RevisionText(q) == text
    ensures NextRevisionNumber(q) == q[..k] + "R" + RenderNumber(Increment(ParseInt(text)))
  {
    assert q[k] == 'R';
  }

  /** The replacement number for revision text made of digits. */
  lemma {:induction false} IncrementedRevision(d: string)
    requires d != [] && AllDigits(d)
    ensures RenderNumber(Increment(ParseInt(d))) == NatToString(DecimalValue(d) + 1)
  {
    ParseDigits(d);
  }

  /** A quote number with a single `R<digits>` suffix moves to the next revision. */
  lemma {:induction false} NextRevisionOfRevision(p: string, d: string)
    requires !Includes(p, 'R')
    requires d != [] && AllDigits(d)
    ensures NextRevisionNumber(p + "R" + d) == p + "R" + NatToString(DecimalValue(d) + 1)
  {
    var q := p + "R" + d;
    assert q[|p|] == 'R';
    assert Includes(q, 'R');
    SuffixOfSingleRevision(p, d);
    TextOfSingleRevision(p, d);
    IncrementedRevision(d);
    assert q[..|p|] == p;
  }

  lemma {:induction false} DigitsHaveNoR(d: string)
    requires AllDigits(d)
    ensures !Includes(d, 'R')
  {
    forall i | 0 <= i < |d| ensures d[i] != 'R' {
      assert IsDigit(d[i]);
    }
  }

  /** A match with no match before it is the one the search finds. */
  lemma {:induction false} FirstSuffixFound(q: string, k: nat)
    requires RevisionSuffixAt(q, k)
    requires forall j :: 0 <= j < k ==> !RevisionSuffixAt(q, j)
    ensures FindRevisionSuffix(q, 0) == Some(k)
  {
  }

  /** No position before the second 'R' of `pR<a>R<b>` starts the suffix. */
  lemma {:induction false} NoSuffixBeforeSecondR(p: string, a: string, b: string, j: nat)
    requires !Includes(p, 'R')
    requires AllDigits(a)
    requires j < |p| + 1 + |a|
    ensures !RevisionSuffixAt(p + "R" + a + "R" + b, j)
  {
    var head := p + "R" + a;
    var q := head + "R" + b;
    if j < |p| {
      assert q[j] == head[j] == p[j];
    } else if j > |p| {
      assert q[j] == head[j] == a[j - |p| - 1];
      assert IsDigit(a[j - |p| - 1]);
    } else {
      NotAllDigits(q[j + 1..], |head| - j - 1);
    }
  }

  /** In `pR<a>R<b>` the suffix starts at the second 'R'. */
  lemma {:induction false} SuffixOfDoubleRevision(p: string, a: string, b: string)
    requires !Includes(p, 'R')
    requires AllDigits(a) && b != [] && AllDigits(b)
    ensures FindRevisionSuffix(p + "R" + a + "R" + b, 0) == Some(|p| + 1 + |a|)
  {
    var q := p + "R" + a + "R" + b;
    var k := |p| + 1 + |a|;
    assert q[k + 1..] == b;
    forall j | 0 <= j < k ensures !RevisionSuffixAt(q, j) {
      NoSuffixBeforeSecondR(p, a, b, j);
    }
    FirstSuffixFound(q, k);
  }

  lemma {:induction false} NotAllDigits(s: string, i: nat)
    requires i < |s| && s[i] == 'R'
    ensures !AllDigits(s)
  {
  }

  /** In `pR<a>R<b>` the text after the first 'R' is `a`. */
  lemma {:induction false} TextOfDoubleRevision(p: string, a: string, b: string)
    requires !Includes(p, 'R')
    requires a != [] && !Includes(a, 'R')
    ensures RevisionText(p + "R" + a + "R" + b) == a
  {
    var q := p + "R" + a + "R" + b;
    var rest := a + "R" + b;
    assert q == p + ("R" + rest);
    BeforeFirstAt(p, 'R', "R" + rest);
    assert BeforeFirst(q, 'R') == p;
    assert q[|p| + 1..] == rest;
    BeforeFirstAt(a, 'R', "R" + b);
    assert a + ("R" + b) == rest;
    assert BeforeFirst(rest, 'R') == a;
    assert SplitPart(q, 'R', 1) == SplitPart(rest, 'R', 0);
  }

  lemma {:induction false} PrefixBeforeRevision(head: string, b: string)
    ensures (head + "R" + b)[..|head|] == head
  {
    assert head + "R" + b == head + ("R" + b);
  }

  /** `pR<a>R<b>` gets `R` and the incremented reading of `a` in place of `R<b>`. */
  lemma {:induction false} DoubleRevisionReplacesLast(p: string, a: string, b: string)
    requires !Includes(p, 'R')
    requires a != [] && AllDigits(a) && b != [] && AllDigits(b)
    ensures NextRevisionNumber(p + "R" + a + "R" + b) == p + "R" + a + "R" + RenderNumber(Increment(ParseInt(a)))
  {
    var head := p + "R" + a;
    var q := head + "R" + b;
    SuffixOfDoubleRevision(p, a, b);
    DigitsHaveNoR(a);
    TextOfDoubleRevision(p, a, b);
    NextRevisionAt(q, |head|, a);
    PrefixBeforeRevision(head, b);
  }

  /**
   * With two revision markers the number is read after the FIRST 'R' but
   * written over the LAST one: `pR<a>R<b>` becomes `pR<a>R<a+1>`, whatever
   * `b` was.
   */
  lemma {:induction false} RevisionReadsFirstNumber(p: string, a: string, b: string)
    requires !Includes(p, 'R')
    requires a != [] && AllDigits(a) && b != [] && AllDigits(b)
    ensures NextRevisionNumber(p + "R" + a + "R" + b) == p + "R" + a + "R" + NatToString(DecimalValue(a) + 1)
  {
    DoubleRevisionReplacesLast(p, a, b);
    IncrementedRevision(a);
  }

  /** In `pRR<b>` the text between the two 'R's is empty, so it is read as "0". */
  lemma {:induction false} TextOfEmptyRevision(p: string, b: string)
    requires !Includes(p, 'R')
    ensures RevisionText(p + "RR" + b) == "0"
  {
    var q := p + "RR" + b;
    assert q == p + ("R" + ("R" + b));
    BeforeFirstAt(p, 'R', "R" + ("R" + b));
    assert q[|p| + 1..] == "R" + b;
    assert BeforeFirst("R" + b, 'R') == "";
    assert SplitPart(q, 'R', 1) == SplitPart("R" + b, 'R', 0);
  }

  /** In `pRR<b>` the suffix starts at the second 'R'. */
  lemma {:induction false} SuffixOfEmptyRevision(p: string, b: string)
    requires !Includes(p, 'R')
    requires b != [] && AllDigits(b)
    ensures FindRevisionSuffix(p + "RR" + b, 0) == Some(|p| + 1)
  {
    assert p + "R" + "" + "R" + b == p + "RR" + b;
    SuffixOfDoubleRevision(p, "", b);
  }

  /** Revision text "0" is replaced by "1". */
  lemma {:induction false} ZeroRevisionIncrements()
    ensures RenderNumber(Increment(ParseInt("0"))) == "1"
  {
    ParseRendered(0);
    assert NatToString(0) == "0";
    assert NatToString(1) == "1";
  }

  /**
   * `pRR<b>` becomes `pRR1`: the empty text after the first 'R' falls back to
   * "0" and the number written over `R<b>` is 1, whatever `b` was.
   */
  lemma {:induction false} EmptyRevisionTextReadsZero(p: string, b: string)
    requires !Includes(p, 'R')
    requires b != [] && AllDigits(b)
    ensures NextRevisionNumber(p + "RR" + b) == p + "RR1"
  {
    var head := p + "R";
    var q := p + "RR" + b;
    SuffixOfEmptyRevision(p, b);
    TextOfEmptyRevision(p, b);
    ZeroRevisionIncrements();
    NextRevisionAt(q, |head|, "0");
    assert head + "R" + b == q;
    PrefixBeforeRevision(head, b);
    assert head + "R" + "1" == p + "RR1";
  }

  /** Where the text after the first 'R' is not a number, `R<digits>` is replaced by "RNaN". */
  lemma {:induction false} UnparsableRevisionGivesNaN(q: string, k: nat)
    requires FindRevisionSuffix(q, 0) == Some(k)
    requires ParseInt(RevisionText(q)).None?
    ensures NextRevisionNumber(q) == q[..k] + "RNaN"
  {
    NextRevisionAt(q, k, RevisionText(q));
  }

  /** In `R<t>R<d>`, with no 'R' in `t`, the suffix starts at the second 'R'. */
  lemma {:induction false} SuffixAfterLeadingR(t: string, d: string)
    requires !Includes(t, 'R')
    requires d != [] && AllDigits(d)
    ensures FindRevisionSuffix("R" + t + "R" + d, 0) == Some(|t| + 1)
  {
    var q := "R" + t + "R" + d;
    var k := |t| + 1;
    assert q[k + 1..] == d;
    forall j | 0 <= j < k ensures !RevisionSuffixAt(q, j) {
      if j == 0 {
        NotAllDigits(q[1..], |t|);
      } else {
        assert q[j] == t[j - 1];
      }
    }
    FirstSuffixFound(q, k);
  }

  /**
   * A quote number that itself starts with 'R', such as `RFQ-…R<d>`, is read
   * after that first 'R': when that text does not start a number the
   * revision becomes "RNaN".
   */
  lemma {:induction false} LeadingRGivesNaN(t: string, d: string)
    requires t != [] && !Includes(t, 'R')
    requires !IsStrWhiteSpace(t[0]) && !IsDigit(t[0]) && t[0] != '-' && t[0] != '+'
    requires d != [] && AllDigits(d)
    ensures NextRevisionNumber("R" + t + "R" + d) == "R" + t + "RNaN"
  {
    var q := "R" + t + "R" + d;
    SuffixAfterLeadingR(t, d);
    assert "" + "R" + t + "R" + d == q;
    TextOfDoubleRevision("", t, d);
    ParseNonNumeric(t);
    UnparsableRevisionGivesNaN(q, |t| + 1);
    PrefixBeforeRevision("R" + t, d);
  }

  /** The text after the leading 'R' of the example below: no other 'R', and no number at its start. */
  lemma {:induction false} LeadingRExampleText(t: string)
    requires t == "FQ-2501-07"
    ensures !Includes(t, 'R')
    ensures t != [] && !IsStrWhiteSpace(t[0]) && !IsDigit(t[0]) && t[0] != '-' && t[0] != '+'
    ensures "R" + t + "R" + "1" == "RFQ-2501-07R1" && "R" + t + "RNaN" == "RFQ-2501-07RNaN"
  {
    forall i | 0 <= i < |t| ensures t[i] != 'R' {
    }
  }

  /** "RFQ-2501-07R1" becomes "RFQ-2501-07RNaN". */
  lemma {:induction false} LeadingRExample()
    ensures NextRevisionNumber("RFQ-2501-07R1") == "RFQ-2501-07RNaN"
  {
    var t := "FQ-2501-07";
    LeadingRExampleText(t);
    assert AllDigits("1");
    LeadingRGivesNaN(t, "1");
  }

  /** Revising a quote number `k` times from its base `p` gives `pR<k>`. */
  function Revise(q: string, k: nat): string {
    if k == 0 then q else NextRevisionNumber(Revise(q, k - 1))
  }

  lemma {:induction false} RepeatedRevisions(p: string, k: nat)
    requires !Includes(p, 'R')
    requires k >= 1
    ensures Revise(p, k) == p + "R" + NatToString(k)
  {
    if k == 1 {
      assert NatToString(1) == "1";
    } else {
      RepeatedRevisions(p, k - 1);
      NatToStringRoundTrip(k - 1);
      NextRevisionOfRevision(p, NatToString(k - 1));
    }
  }

  /** The base of the examples below has no 'R'. */
  lemma {:induction false} ExampleBaseHasNoR()
    ensures !Includes("2501-07", 'R')
  {
    var p := "2501-07";
    forall i | 0 <= i < |p| ensures p[i] != 'R' {
    }
  }

  /** "2501-07" becomes "2501-07R1". */
  lemma {:induction false} FirstRevisionExample()
    ensures NextRevisionNumber("2501-07") == "2501-07R1"
  {
    ExampleBaseHasNoR();
  }

  /** The digit strings and concatenations the two examples below rely on. */
  lemma {:induction false} ExampleFacts()
    ensures AllDigits("1") && DecimalValue("1") == 1 && NatToString(2) == "2"
    ensures AllDigits("10") && DecimalValue("10") == 10 && NatToString(11) == "11"
    ensures AllDigits("09") && DecimalValue("09") == 9 && NatToString(10) == "10"
    ensures "2501-07" + "R" + "1" == "2501-07R1" && "2501-07" + "R" + "2" == "2501-07R2"
    ensures "2501-07" + "R" + "10" == "2501-07R10" && "2501-07" + "R" + "11" == "2501-07R11"
    ensures "2501-07" + "R" + "09" == "2501-07R09"
  {
  }

  /** "2501-07R1" becomes "2501-07R2". */
  lemma {:induction false} NextRevisionExample()
    ensures NextRevisionNumber("2501-07R1") == "2501-07R2"
  {
    ExampleBaseHasNoR();
    ExampleFacts();
    NextRevisionOfRevision("2501-07", "1");
  }

  /**
   * A two-digit revision is read whole, and a leading zero is dropped:
   * "2501-07R10" becomes "2501-07R11" and "2501-07R09" becomes "2501-07R10".
   */
  lemma {:induction false} MultiDigitRevisionExample()
    ensures NextRevisionNumber("2501-07R10") == "2501-07R11"
    ensures NextRevisionNumber("2501-07R09") == "2501-07R10"
  {
    ExampleBaseHasNoR();
    ExampleFacts();
    NextRevisionOfRevision("2501-07", "10");
    NextRevisionOfRevision("2501-07", "09");
  }

  /** With an 'R' but no trailing `R<digits>`, the replace matches nothing. */
  lemma {:induction false} RevisionWithoutSuffixKeepsQuote()
    ensures NextRevisionNumber("R2501-07") == "R2501-07"
  {
    var q := "R2501-07";
    assert q[0] == 'R';
    assert !IsDigit(q[5]);
    assert !RevisionSuffixAt(q, 0);
    forall j | 1 <= j ensures !RevisionSuffixAt(q, j) {
      if 1 <= j < |q| {
        assert q[j] != 'R';
      }
    }
  }

  // ------------------------------------------------------------ the saved record

  /**
   * What `handleSave` produces before `saveEstimate`: the quote number it
   * writes to the store, if any, and the record it sends.
   */
  datatype SaveRequest = SaveRequest(revisedQuoteNumber: Option<string>, record: EstimateData)

  /**
   * `handleSave(useNewNumber)` on the page for route `routeId`. The record is
   * built from `current`, the estimate as it was before the revised number was
   * written to the store, so it still carries the old quote number. The clock
   * is read twice: `updateTime` for the update stamp and `createTime` for the
   * creation stamp of a record without an id.
   */
  function HandleSave(current: EstimateData, routeId: Option<string>, useNewNumber: bool, updateTime: string, createTime: string): (r: SaveRequest)
    ensures r.revisedQuoteNumber.Some? <==> HasId(routeId) && useNewNumber
    ensures r.revisedQuoteNumber.Some? ==>
      r.revisedQuoteNumber.value == NextRevisionNumber(current.projectInfo.quoteNumber)
    ensures r.record.id == (if useNewNumber then None else routeId)
    ensures r.record.updatedAt == Some(updateTime)
    ensures r.record.createdAt == (if HasId(r.record.id) then current.createdAt else Some(createTime))
    ensures r.record == current.(id := r.record.id, updatedAt := r.record.updatedAt, createdAt := r.record.createdAt)
  {
    var revised := if HasId(routeId) && useNewNumber
      then Some(NextRevisionNumber(current.projectInfo.quoteNumber)) else None;
    var stamped := current.(id := if useNewNumber then None else routeId, updatedAt := Some(updateTime));
    var record := if !HasId(stamped.id) then stamped.(createdAt := Some(createTime)) else stamped;
    SaveRequest(revised, record)
  }

  /**
   * A revision save (an existing estimate saved with a new number) reaches the
   * database without an id, so `saveEstimate` stamps it with the next free
   * month number: the revised quote number is never stored.
   */
  lemma {:induction false} RevisionSaveStoresNextFreeNumber(current: EstimateData, routeId: Option<string>, updateTime: string, createTime: string, next: string)
    requires HasId(routeId)
    ensures var request := HandleSave(current, routeId, true, updateTime, createTime);
      && request.revisedQuoteNumber == Some(NextRevisionNumber(current.projectInfo.quoteNumber))
      && AssignQuoteNumberOnCreate(request.record, next).projectInfo.quoteNumber == next
      && AssignQuoteNumberOnCreate(request.record, next).id.None?
  {
  }

  /** A plain save of an existing estimate keeps its id, quote number and creation time. */
  lemma {:induction false} UpdateSaveKeepsIdentity(current: EstimateData, routeId: Option<string>, updateTime: string, createTime: string, next: string)
    requires HasId(routeId)
    ensures var request := HandleSave(current, routeId, false, updateTime, createTime);
      var saved := AssignQuoteNumberOnCreate(request.record, next);
      && request.revisedQuoteNumber.None?
      && saved.id == routeId
      && saved.projectInfo == current.projectInfo
      && saved.createdAt == current.createdAt
  {
  }

  /** Saving on the new-estimate page sends a record without an id, which gets the next number. */
  lemma {:induction false} FirstSaveGetsNextNumber(current: EstimateData, routeId: Option<string>, useNewNumber: bool, updateTime: string, createTime: string, next: string)
    requires !HasId(routeId)
    ensures var request := HandleSave(current, routeId, useNewNumber, updateTime, createTime);
      && request.revisedQuoteNumber.None?
      && request.record.createdAt == Some(createTime)
      && AssignQuoteNumberOnCreate(request.record, next).projectInfo.quoteNumber == next
  {
  }
}
