/**
  The single pass of yaml_emitter_analyze_scalar, against the verdict defined by what the
  value contains.
 */
module AnalyzeScalar {
  import opened Chars
  import opened Printing
  import opened ScalarAnalysis

  // What the flags of the pass mean before character `i`.

  ghost predicate SeenFlowIndicator(value: Text, i: nat)
    requires i <= |value|
  {
    StartsLikeDocument(value) || exists k :: 0 <= k < i && FlowIndicatorAt(value, k)
  }

  ghost predicate SeenBlockIndicator(value: Text, i: nat)
    requires i <= |value|
  {
    StartsLikeDocument(value) || exists k :: 0 <= k < i && BlockIndicatorAt(value, k)
  }

  ghost predicate SeenBreak(value: Text, i: nat)
    requires i <= |value|
  {
    exists k :: 0 <= k < i && IsBreak(value[k])
  }

  ghost predicate SeenSpecial(s: Settings, value: Text, i: nat)
    requires i <= |value|
  {
    exists k :: 0 <= k < i && !IsOrdinary(s, value[k])
  }

  predicate SpaceThenBreak(value: Text, k: nat)
    requires k < |value|
  {
    IsBreak(value[k]) && k > 0 && value[k - 1] == SPACE
  }

  predicate BreakThenSpace(value: Text, k: nat)
    requires k < |value|
  {
    value[k] == SPACE && k > 0 && IsBreak(value[k - 1])
  }

  ghost predicate SeenSpaceBreak(value: Text, i: nat)
    requires i <= |value|
  {
    exists k :: 0 <= k < i && SpaceThenBreak(value, k)
  }

  ghost predicate SeenBreakSpace(value: Text, i: nat)
    requires i <= |value|
  {
    exists k :: 0 <= k < i && BreakThenSpace(value, k)
  }

  /** The indicator tests of one turn. */
  method CheckIndicators(value: Text, i: nat, preceded: bool, flowBefore: bool, blockBefore: bool)
    returns (flow: bool, block: bool)
    requires i < |value| && preceded == (i == 0 || IsBlankZ(value[i - 1]))
    ensures flow == (flowBefore || FlowIndicatorAt(value, i))
    ensures block == (blockBefore || BlockIndicatorAt(value, i))
  {
    var c := value[i];
    var followed := IsBlankZ(At(value, i + 1));
    flow, block := flowBefore, blockBefore;
    if i == 0 {
      if IsLeadingIndicator(c) {
        flow, block := true, true;
      }
      if c == QUESTION || c == COLON {
        flow := true;
        if followed {
          block := true;
        }
      }
      if c == DASH && followed {
        flow, block := true, true;
      }
    } else {
      if c == COMMA || c == QUESTION || IsBracket(c) {
        flow := true;
      }
      if c == COLON {
        flow := true;
        if followed {
          block := true;
        }
      }
      if c == HASH && preceded {
        flow, block := true, true;
      }
    }
  }

  method AnalyzeScalar(s: Settings, value: Text) returns (a: Analysis)
    ensures a == Analyze(s, value)
  {
    hide FlowIndicatorAt, BlockIndicatorAt, StartsLikeDocument, IsPrintable;
    if value == [] {
      return Analysis(false, false, true, true, false);
    }
    var blockIndicators := StartsLikeDocument(value);
    var flowIndicators := StartsLikeDocument(value);
    var lineBreaks, specialCharacters := false, false;
    var leadingSpace, leadingBreak, trailingSpace, trailingBreak := false, false, false, false;
    var breakSpace, spaceBreak := false, false;
    var previousSpace, previousBreak, preceded := false, false, true;
    var i := 0;
    while i < |value|
      invariant 0 <= i <= |value|
      invariant preceded == (i == 0 || IsBlankZ(value[i - 1]))
      invariant previousSpace == (i > 0 && value[i - 1] == SPACE)
      invariant previousBreak == (i > 0 && IsBreak(value[i - 1]))
      invariant flowIndicators == SeenFlowIndicator(value, i) && blockIndicators == SeenBlockIndicator(value, i)
      invariant lineBreaks == SeenBreak(value, i) && specialCharacters == SeenSpecial(s, value, i)
      invariant spaceBreak == SeenSpaceBreak(value, i) && breakSpace == SeenBreakSpace(value, i)
      invariant leadingSpace == (i > 0 && value[0] == SPACE) && leadingBreak == (i > 0 && IsBreak(value[0]))
      invariant trailingSpace == (i == |value| && value[i - 1] == SPACE)
      invariant trailingBreak == (i == |value| && IsBreak(value[i - 1]))
    {
      var c := value[i];
      flowIndicators, blockIndicators := CheckIndicators(value, i, preceded, flowIndicators, blockIndicators);
      assert SpaceThenBreak(value, i) == (IsBreak(c) && previousSpace);
      assert BreakThenSpace(value, i) == (c == SPACE && previousBreak);
      if !IsPrintable(c) || (!IsAscii(c) && !s.unicode) {
        specialCharacters := true;
      }
      if IsBreak(c) {
        lineBreaks := true;
      }
      if c == SPACE {
        leadingSpace := leadingSpace || i == 0;
        trailingSpace := trailingSpace || i + 1 == |value|;
        breakSpace := breakSpace || previousBreak;
        previousSpace, previousBreak := true, false;
      } else if IsBreak(c) {
        leadingBreak := leadingBreak || i == 0;
        trailingBreak := trailingBreak || i + 1 == |value|;
        spaceBreak := spaceBreak || previousSpace;
        previousSpace, previousBreak := false, true;
      } else {
        previousSpace, previousBreak := false, false;
      }
      preceded := IsBlankZ(c);
      i := i + 1;
    }
    SeenNothingAmiss(s, value);
    var plain := !(leadingSpace || leadingBreak || trailingSpace || trailingBreak)
      && !breakSpace && !spaceBreak && !specialCharacters && !lineBreaks;
    a := Analysis(lineBreaks, plain && !flowIndicators, plain && !blockIndicators,
                  !breakSpace && !spaceBreak && !specialCharacters,
                  !trailingSpace && !spaceBreak && !specialCharacters);
  }

  /** The flags of the whole pass together are the conditions on each character. */
  lemma SeenNothingAmiss(s: Settings, value: Text)
    ensures var n := |value|;
      && (!SeenSpecial(s, value, n) && !SeenSpaceBreak(value, n)
          <==> forall i :: 0 <= i < n ==> BlockClean(s, value, i))
      && (!SeenSpecial(s, value, n) && !SeenSpaceBreak(value, n) && !SeenBreakSpace(value, n)
          <==> SingleQuotedAllowed(s, value))
  {
    var n := |value|;
    if !SeenSpecial(s, value, n) && !SeenSpaceBreak(value, n) {
      forall i | 0 <= i < n
        ensures BlockClean(s, value, i) && (!SeenBreakSpace(value, n) ==> CleanAt(s, value, i))
      {
        assert i + 1 < n ==> !SpaceThenBreak(value, i + 1);
        assert i + 1 < n && !SeenBreakSpace(value, n) ==> !BreakThenSpace(value, i + 1);
      }
    }
    forall k | 0 <= k < n && !IsOrdinary(s, value[k])
      ensures !BlockClean(s, value, k) && !CleanAt(s, value, k)
    {
    }
    forall k | 0 <= k < n && SpaceThenBreak(value, k)
      ensures !BlockClean(s, value, k - 1) && !CleanAt(s, value, k - 1)
    {
    }
    forall k | 0 <= k < n && BreakThenSpace(value, k)
      ensures !CleanAt(s, value, k - 1)
    {
    }
  }
}
