/**
 * Quote numbers `YYMM-NN` (src/services/supabaseClient.ts): the month
 * prefix, the first-gap search over the month's sequence numbers, and the
 * rule that a number is assigned only to an estimate without an id.
 */
module QuoteNumbers {
  import opened Wrappers
  import opened Decimal
  import opened JsStrings
  import opened EstimateTypes

  /** `${yy}${mm}-` for a calendar year and a zero-based month (`getMonth()`). */
  function MonthPrefix(year: nat, monthIndex: nat): (r: string)
    requires monthIndex < 12
    ensures |r| == |LastTwo(NatToString(year))| + 3 && r[|r| - 1] == '-'
  {
    LastTwo(NatToString(year)) + PadTwo(monthIndex + 1) + "-"
  }

  /**
   * The prefix encodes the date: before the two month digits stand the
   * digits of the year modulo 100, and the month digits read back as the
   * one-based month.
   */
  lemma {:induction false} MonthPrefixEncodesDate(year: nat, monthIndex: nat)
    requires monthIndex < 12
    ensures var r := MonthPrefix(year, monthIndex);
      && AllDigits(r[..|r| - 3]) && DecimalValue(r[..|r| - 3]) == year % 100
      && AllDigits(r[|r| - 3..|r| - 1]) && DecimalValue(r[|r| - 3..|r| - 1]) == monthIndex + 1
  {
    var yy := LastTwo(NatToString(year));
    var mm := PadTwo(monthIndex + 1);
    LastTwoOfRendering(year);
    PadTwoRoundTrip(monthIndex + 1);
    var r := MonthPrefix(year, monthIndex);
    assert r == yy + mm + "-";
    assert r[..|r| - 3] == yy && r[|r| - 3..|r| - 1] == mm;
  }

  /** `parseInt(quoteNumber.split('-')[1])`: the sequence number of a stored quote, NaN as `None`. */
  function SequenceNumber(quoteNumber: string): Option<int> {
    match SplitPart(quoteNumber, '-', 1)
    case None => None  // parseInt(undefined) is NaN
    case Some(suffix) => ParseInt(suffix)
  }

  /** The sequence numbers of the month's quotes, in query order. */
  function SequenceNumbers(quotes: seq<string>): (r: seq<Option<int>>)
    ensures |r| == |quotes| && forall i :: 0 <= i < |quotes| ==> r[i] == SequenceNumber(quotes[i])
  {
    if quotes == [] then [] else [SequenceNumber(quotes[0])] + SequenceNumbers(quotes[1..])
  }

  /** A quote number this module writes reads back as its sequence number. */
  lemma {:induction false} SequenceNumberOfQuote(year: nat, monthIndex: nat, n: nat)
    requires monthIndex < 12
    ensures SequenceNumber(MonthPrefix(year, monthIndex) + PadTwo(n)) == Some(n)
  {
    var head := LastTwo(NatToString(year)) + PadTwo(monthIndex + 1);
    assert !Includes(head, '-') by {
      forall i | 0 <= i < |head| ensures head[i] != '-' {
        assert IsDigit(head[i]);
      }
    }
    assert !Includes(PadTwo(n), '-') by {
      forall i | 0 <= i < |PadTwo(n)| ensures PadTwo(n)[i] != '-' {
        assert IsDigit(PadTwo(n)[i]);
      }
    }
    assert MonthPrefix(year, monthIndex) + PadTwo(n) == head + ['-'] + PadTwo(n);
    SplitAtOnlySeparator(head, '-', PadTwo(n));
    ParseDigits(PadTwo(n));
    PadTwoRoundTrip(n);
  }

  /**
   * The number the scan settles on when it expects `expected` at the head of
   * `nums`: the first position whose number is not the expected one (NaN never
   * is), or one past the end.
   */
  function FirstGapFrom(nums: seq<Option<int>>, expected: int): (r: int)
    ensures expected <= r <= expected + |nums|
    ensures forall j :: 0 <= j < r - expected ==> nums[j] == Some(expected + j)
    ensures r - expected < |nums| ==> nums[r - expected] != Some(r)
    decreases |nums|
  {
    if nums == [] || nums[0] != Some(expected) then expected
    else FirstGapFrom(nums[1..], expected + 1)
  }

  /** The sequence number `getNextQuoteNumber` picks for the month's parsed numbers, in query order. */
  function FirstGap(nums: seq<Option<int>>): (r: int)
    ensures 1 <= r <= |nums| + 1
  {
    FirstGapFrom(nums, 1)
  }

  /** Every entry is a parsed number, and they strictly increase. */
  predicate StrictlyIncreasing(nums: seq<Option<int>>) {
    && (forall i :: 0 <= i < |nums| ==> nums[i].Some?)
    && (forall i, j :: 0 <= i < j < |nums| ==> nums[i].value < nums[j].value)
  }

  /**
   * On a strictly increasing list of positive numbers the scan finds the
   * smallest positive number not yet used.
   */
  lemma {:induction false} FirstGapIsSmallestUnused(nums: seq<Option<int>>)
    requires StrictlyIncreasing(nums)
    requires forall i :: 0 <= i < |nums| ==> nums[i].value >= 1
    ensures Some(FirstGap(nums)) !in nums
    ensures forall k :: 1 <= k < FirstGap(nums) ==> Some(k) in nums
  {
    var r := FirstGap(nums);
    forall k | 1 <= k < r ensures Some(k) in nums {
      assert nums[k - 1] == Some(k);
    }
    forall i | 0 <= i < |nums| ensures nums[i] != Some(r) {
      if i < r - 1 {
        assert nums[i] == Some(i + 1);
      } else if i > r - 1 {
        assert nums[r - 1].value < nums[i].value;
        if r > 1 {
          assert nums[r - 2] == Some(r - 1);
          assert nums[r - 2].value < nums[r - 1].value;
        }
      }
    }
  }

  /** The month's quote numbers as this module writes them, one per used sequence number. */
  function WrittenQuotes(year: nat, monthIndex: nat, used: seq<nat>): (r: seq<string>)
    requires monthIndex < 12
    ensures |r| == |used|
  {
    seq(|used|, i requires 0 <= i < |used| => MonthPrefix(year, monthIndex) + PadTwo(used[i]))
  }

  /** Written quote numbers parse back to the sequence numbers they were written from. */
  lemma {:induction false} WrittenQuotesParse(year: nat, monthIndex: nat, used: seq<nat>)
    requires monthIndex < 12
    ensures forall i :: 0 <= i < |used| ==> SequenceNumbers(WrittenQuotes(year, monthIndex, used))[i] == Some(used[i] as int)
  {
    var nums := SequenceNumbers(WrittenQuotes(year, monthIndex, used));
    forall i | 0 <= i < |used| ensures nums[i] == Some(used[i] as int) {
      SequenceNumberOfQuote(year, monthIndex, used[i]);
    }
  }

  /** The scan over parsed numbers that mirror an increasing list of used numbers finds the least unused one. */
  lemma {:induction false} FirstGapOfUsed(nums: seq<Option<int>>, used: seq<nat>)
    requires |nums| == |used| && forall i :: 0 <= i < |used| ==> nums[i] == Some(used[i] as int)
    requires forall i :: 0 <= i < |used| ==> used[i] >= 1
    requires forall i, j :: 0 <= i < j < |used| ==> used[i] < used[j]
    ensures FirstGap(nums) !in used
    ensures forall k :: 1 <= k < FirstGap(nums) ==> k in used
  {
    FirstGapIsSmallestUnused(nums);
    var r := FirstGap(nums);
    forall i | 0 <= i < |used| ensures used[i] != r {
      assert nums[i] != Some(r);
    }
    forall k | 1 <= k < r ensures k in used {
      assert Some(k) in nums;
      var i :| 0 <= i < |nums| && nums[i] == Some(k);
      assert used[i] == k;
    }
  }

  /**
   * For the month's quotes as this module writes them, listed in increasing
   * order, the scan picks the smallest positive sequence number not in use.
   */
  lemma {:induction false} NextNumberIsSmallestUnused(year: nat, monthIndex: nat, used: seq<nat>)
    requires monthIndex < 12
    requires forall i :: 0 <= i < |used| ==> used[i] >= 1
    requires forall i, j :: 0 <= i < j < |used| ==> used[i] < used[j]
    ensures FirstGap(SequenceNumbers(WrittenQuotes(year, monthIndex, used))) !in used
    ensures forall k :: 1 <= k < FirstGap(SequenceNumbers(WrittenQuotes(year, monthIndex, used))) ==> k in used
  {
    WrittenQuotesParse(year, monthIndex, used);
    FirstGapOfUsed(SequenceNumbers(WrittenQuotes(year, monthIndex, used)), used);
  }

  /** Quote numbers 01 and 03 in use: the next one is 02. */
  lemma {:induction false} GapIsFilled()
    ensures FirstGap([Some(1), Some(3)]) == 2 && PadTwo(FirstGap([Some(1), Some(3)])) == "02"
  {
  }

  /**
   * The scan trusts the query order: with a repeated number (two quotes whose
   * suffixes both parse to 1) it returns a number that is already taken.
   */
  lemma {:induction false} RepeatedNumberIsReused()
    ensures FirstGap([Some(1), Some(1), Some(2)]) == 2 && Some(2) in [Some(1), Some(1), Some(2)]
  {
  }

  /** A quote whose suffix is not a number stops the scan at its position. */
  lemma {:induction false} UnparsableSuffixIsAGap()
    ensures FirstGap([Some(1), None, Some(3)]) == 2
  {
  }

  /**
   * `getNextQuoteNumber` after its query: `query` is the quote numbers of the
   * month's estimates in the order the query returned them (an empty or
   * missing result is the empty list), or the query's error.
   */
  method NextQuoteNumber(prefix: string, query: Result<seq<string>, string>) returns (quote: string)
    ensures query.Failure? ==> quote == prefix + "01"
    ensures query.Success? && query.value == [] ==> quote == prefix + "01"
    ensures query.Success? ==> quote == prefix + PadTwo(FirstGap(SequenceNumbers(query.value)))
  {
    if query.Failure? {
      return prefix + "01";
    }
    var data := query.value;
    if |data| == 0 {
      FirstGapOfNone(SequenceNumbers(data));
      return prefix + "01";
    }
    var n := ScanForGap(data);
    return prefix + PadTwo(n);
  }

  /**
   * The loop of `getNextQuoteNumber`: walk the quotes in order, expecting
   * 1, 2, 3, …, and stop at the first whose parsed suffix is not the
   * expected number.
   */
  method ScanForGap(data: seq<string>) returns (n: int)
    ensures n == FirstGap(SequenceNumbers(data))
  {
    ghost var nums := SequenceNumbers(data);
    var expected := 1;
    for i := 0 to |data|
      invariant expected == i + 1
      invariant FirstGapFrom(nums[i..], expected) == FirstGap(nums)
    {
      var current := SequenceNumber(data[i]);
      FirstGapStep(nums, i, expected);
      if current != Some(expected) {
        return expected;
      }
      expected := expected + 1;
    }
    assert nums[|data|..] == [];
    return expected;
  }

  /** One step of the scan: stop at a mismatch, otherwise move on expecting the next number. */
  lemma {:induction false} FirstGapStep(nums: seq<Option<int>>, i: nat, expected: int)
    requires i < |nums|
    ensures FirstGapFrom(nums[i..], expected)
         == if nums[i] != Some(expected) then expected else FirstGapFrom(nums[i + 1..], expected + 1)
  {
    assert nums[i..][0] == nums[i];
    assert nums[i..][1..] == nums[i + 1..];
  }

  /** With no quotes this month the scan picks 1, written "01". */
  lemma {:induction false} FirstGapOfNone(nums: seq<Option<int>>)
    requires nums == []
    ensures PadTwo(FirstGap(nums)) == "01"
  {
    assert FirstGap(nums) == 1;
    assert NatToString(1) == "1";
  }

  /** `saveEstimate`: an estimate without an id (absent or '') gets the next quote number; any other is saved as it is. */
  function AssignQuoteNumberOnCreate(e: EstimateData, next: string): (r: EstimateData)
    ensures HasId(e.id) ==> r == e
    ensures !HasId(e.id) ==> r.projectInfo.quoteNumber == next
    ensures r == e.(projectInfo := e.projectInfo.(quoteNumber := r.projectInfo.quoteNumber))
  {
    if HasId(e.id) then e else e.(projectInfo := e.projectInfo.(quoteNumber := next))
  }
}
