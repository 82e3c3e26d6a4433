/** src/jobOutputText.ts: the bounded tail of a job's log. */
module JobOutputText {
  import opened Strings

  const MAX_CHARS: nat := 256 * 1024
  const NOTICE: Text := Ascii("[Earlier output is hidden to keep this view responsive.]\n")

  /** `text.slice(-n)` for a positive n. */
  function Last(text: Text, n: nat): Text {
    if |text| <= n then text else text[|text| - n..]
  }

  predicate IsLow(u: CodeUnit) { 0xDC00 <= u <= 0xDFFF }

  predicate IsHigh(u: CodeUnit) { 0xD800 <= u <= 0xDBFF }

  function DropLeadingLow(text: Text): Text {
    if text != [] && IsLow(text[0]) then text[1..] else text
  }

  function Displayed(current: Text, incoming: Text, append: bool): Text {
    var hidden := NOTICE <= current;
    var kept := if append then if hidden then current[|NOTICE|..] else current else [];
    var clipped := |kept| + |incoming| > MAX_CHARS || (append && hidden);
    var tail := Last(Last(kept, MAX_CHARS) + Last(incoming, MAX_CHARS), MAX_CHARS);
    (if clipped then NOTICE else []) + DropLeadingLow(tail)
  }

  /** What the view should show of a log: all of it, or the notice and a tail on a character boundary. */
  function Show(log: Text): Text {
    (if |log| > MAX_CHARS then NOTICE else []) + DropLeadingLow(Last(log, MAX_CHARS))
  }

  /** What appending the fragments one by one shows. */
  function Feed(fragments: seq<Text>): Text {
    if fragments == [] then []
    else Displayed(Feed(fragments[..|fragments| - 1]), fragments[|fragments| - 1], true)
  }

  /** Every low surrogate follows a high one: what decoding UTF-8 can produce, cut anywhere. */
  ghost predicate WellPaired(log: Text) {
    forall i | 0 <= i < |log| && IsLow(log[i]) :: i > 0 && IsHigh(log[i - 1])
  }

  /**
   * The one family of logs on which appending differs from showing the whole: a log that begins with
   * the notice itself, outgrew the limit by less than the notice, and was cut after its own notice
   * while it still fitted. The view then takes the log's text for the view's own notice.
   */
  ghost predicate Misread(fragments: seq<Text>) {
    var log := Concat(fragments);
    && NOTICE <= log
    && MAX_CHARS < |log| < MAX_CHARS + |NOTICE|
    && exists k :: 0 <= k <= |fragments| && |NOTICE| <= |Concat(fragments[..k])| <= MAX_CHARS
  }

  /** Away from the notice, appending shows the log so far. */
  lemma AppendPlain(current: Text, more: Text)
    requires !(NOTICE <= current)
    ensures Displayed(current, more, true) == Show(current + more)
  {
    LastOfParts(current, more, MAX_CHARS);
  }

  /** One call replacing the view shows the log, whatever was shown before. */
  lemma ReplacingShowsTheLog(current: Text, log: Text)
    ensures Displayed(current, log, false) == Show(log)
  {
    LastOfParts([], log, MAX_CHARS);
    assert [] + log == log;
  }

  /** What is shown of a whole log: all of it while it fits, then the notice and a tail on a character boundary. */
  lemma ShowIsTheLogOrItsTail(log: Text)
    requires WellPaired(log)
    ensures |log| <= MAX_CHARS ==> Show(log) == log
    ensures |log| > MAX_CHARS ==>
      var cut := |log| - MAX_CHARS;
      Show(log) == NOTICE + log[if IsLow(log[cut]) then cut + 1 else cut..]
  {
    TailOnABoundary(log, MAX_CHARS);
  }

  lemma TailOnABoundary(log: Text, n: nat)
    requires WellPaired(log) && n > 0
    ensures
      var cut := |log| - n;
      DropLeadingLow(Last(log, n)) == if cut <= 0 then log else log[if IsLow(log[cut]) then cut + 1 else cut..]
  {
    if |log| > n {
      var cut := |log| - n;
      assert Last(log, n)[0] == log[cut] && Last(log, n)[1..] == log[cut + 1..];
    } else {
      assert log != [] ==> !IsLow(log[0]);
    }
  }

  lemma PrefixIsWellPaired(log: Text, k: nat)
    requires k <= |log| && WellPaired(log)
    ensures WellPaired(log[..k])
  {
    forall i | 0 <= i < k && IsLow(log[..k][i]) ensures i > 0 && IsHigh(log[..k][i - 1]) {
      assert IsLow(log[i]);
    }
  }

  /** Keeping at most n of each part first loses nothing of the last n of both together. */
  lemma LastOfParts(a: Text, b: Text, n: nat)
    ensures Last(Last(a, n) + Last(b, n), n) == Last(a + b, n)
  {
    LastOfLast(b, n, n);
    LastOfBoth(a, b, n);
    if |b| >= n {
      LastOfBoth(Last(a, n), Last(b, n), n);
    } else {
      LastOfBoth(Last(a, n), b, n);
      LastOfLast(a, n, n - |b|);
    }
  }

  lemma LastOfLast(text: Text, n: nat, fewer: nat)
    requires fewer <= n
    ensures Last(Last(text, n), fewer) == Last(text, fewer)
    ensures |Last(text, n)| == if |text| <= n then |text| else n
  {
  }

  /** The last n of two parts: of the second alone, or of the first with all of the second. */
  lemma LastOfBoth(a: Text, b: Text, n: nat)
    ensures Last(a + b, n) == if |b| >= n then Last(b, n) else Last(a, n - |b|) + b
  {
  }

  /** The unit after the notice's line end is never a low surrogate, nor is any unit of the notice. */
  lemma NoLowInsideNotice(log: Text, i: nat)
    requires WellPaired(log) && NOTICE <= log && i <= |NOTICE| && i < |log|
    ensures !IsLow(log[i])
  {
    if i < |NOTICE| {
      assert log[i] == NOTICE[i];
      assert NOTICE[i] in NOTICE;
    } else {
      assert log[i - 1] == NOTICE[i - 1];
      assert NOTICE[i - 1] in NOTICE;
    }
  }

  /** Appending under the notice keeps the notice and at most the limit of what follows it. */
  lemma AppendUnderNotice(current: Text, more: Text, rest: Text)
    requires NOTICE <= current && rest == current[|NOTICE|..] + more
    ensures Displayed(current, more, true) == NOTICE + DropLeadingLow(Last(rest, MAX_CHARS))
  {
    LastOfParts(current[|NOTICE|..], more, MAX_CHARS);
  }

  /** Dropping the torn half of a pair now or after appending comes to the same. */
  lemma DropThenAppend(log: Text, more: Text, n: nat)
    requires WellPaired(log + more) && |log| > n > 1
    ensures
      var kept := DropLeadingLow(Last(log, n));
      DropLeadingLow(Last(kept + more, n)) == DropLeadingLow(Last(log + more, n))
  {
    var kept := DropLeadingLow(Last(log, n));
    if more == [] {
      assert kept + more == kept && log + more == log;
      DropOnce(log, n);
    } else {
      LastOfBoth(kept, more, n);
      LastOfBoth(log, more, n);
      LastOfKept(log, n, n - |more|);
    }
  }

  lemma DropOnce(log: Text, n: nat)
    requires WellPaired(log) && |log| > n > 1
    ensures DropLeadingLow(Last(DropLeadingLow(Last(log, n)), n)) == DropLeadingLow(Last(log, n))
  {
    var cut := |log| - n;
    assert IsLow(log[cut]) ==> !IsLow(log[cut + 1]);
  }

  lemma LastOfKept(log: Text, n: nat, fewer: int)
    requires |log| > n > fewer
    ensures fewer > 0 ==> Last(DropLeadingLow(Last(log, n)), fewer) == Last(log, fewer)
  {
    var kept := DropLeadingLow(Last(log, n));
    var gone := log[..|log| - |kept|];
    assert log == gone + kept;
    if fewer > 0 { LastOfBoth(gone, kept, fewer); }
  }

  /** Appending to a shown log that was clipped. */
  lemma AppendToClipped(log: Text, more: Text)
    requires WellPaired(log + more) && |log| > MAX_CHARS
    ensures Displayed(Show(log), more, true) == Show(log + more)
  {
    DropThenAppend(log, more, MAX_CHARS);
    var kept := DropLeadingLow(Last(log, MAX_CHARS));
    assert (NOTICE + kept)[|NOTICE|..] == kept;
    AppendUnderNotice(NOTICE + kept, more, kept + more);
  }

  /** Appending to a log that is itself shown from its own leading notice on. */
  lemma AppendToNotice(log: Text, more: Text)
    requires WellPaired(log + more) && NOTICE <= log
    requires |log| < MAX_CHARS + |NOTICE|
    ensures Displayed(log, more, true) == if |log + more| < MAX_CHARS + |NOTICE| then log + more else Show(log + more)
  {
    var rest := log[|NOTICE|..] + more;
    assert NOTICE + rest == log + more;
    AppendUnderNotice(log, more, rest);
    NoticeThenRest(rest);
  }

  lemma NoticeThenRest(rest: Text)
    requires WellPaired(NOTICE + rest)
    ensures NOTICE + DropLeadingLow(Last(rest, MAX_CHARS))
         == if |rest| < MAX_CHARS then NOTICE + rest else Show(NOTICE + rest)
  {
    if |rest| < MAX_CHARS {
      if rest != [] { NoLowInsideNotice(NOTICE + rest, |NOTICE|); }
    } else {
      assert Last(rest, MAX_CHARS) == Last(NOTICE + rest, MAX_CHARS);
    }
  }

  /** Whether a view is misread after one more fragment, from what it was before. */
  lemma MisreadStep(fragments: seq<Text>)
    requires fragments != []
    ensures
      var before := fragments[..|fragments| - 1];
      var log, all := Concat(before), Concat(fragments);
      Misread(fragments) <==>
        if Misread(before) then |all| < MAX_CHARS + |NOTICE|
        else NOTICE <= log && |log| <= MAX_CHARS < |all| < MAX_CHARS + |NOTICE|
  {
    var before := fragments[..|fragments| - 1];
    var log, all := Concat(before), Concat(fragments);
    assert before[..|before|] == before && fragments[..|before|] == before && fragments[..|fragments|] == fragments;
    if NOTICE <= log { assert all[..|NOTICE|] == log[..|NOTICE|]; }
    if Misread(fragments) {
      var k :| 0 <= k <= |fragments| && |NOTICE| <= |Concat(fragments[..k])| <= MAX_CHARS;
      assert fragments[..k] == before[..k];
      CutsArePrefixes(before, k);
      assert log[..|NOTICE|] == all[..|NOTICE|];
    } else if Misread(before) {
      var k :| 0 <= k <= |before| && |NOTICE| <= |Concat(before[..k])| <= MAX_CHARS;
      assert fragments[..k] == before[..k];
    }
  }

  /** One more fragment after a view that shows the log, unless the log's own notice is now taken for the view's. */
  lemma AppendShows(log: Text, more: Text)
    requires WellPaired(log + more)
    requires !(NOTICE <= log && |log| <= MAX_CHARS < |log + more| < MAX_CHARS + |NOTICE|)
    ensures Displayed(Show(log), more, true) == Show(log + more)
  {
    assert (log + more)[..|log|] == log;
    PrefixIsWellPaired(log + more, |log|);
    if |log| > MAX_CHARS {
      AppendToClipped(log, more);
    } else {
      ShowIsTheLogOrItsTail(log);
      if NOTICE <= log {
        AppendToNotice(log, more);
        ShowIsTheLogOrItsTail(log + more);
      } else {
        AppendPlain(log, more);
      }
    }
  }

  /** What appending shows, exactly: the log verbatim in the misread window, otherwise one call's answer. */
  lemma {:induction false} FeedExactly(fragments: seq<Text>)
    requires WellPaired(Concat(fragments))
    ensures Feed(fragments) == if Misread(fragments) then Concat(fragments) else Show(Concat(fragments))
  {
    if fragments == [] {
      ShowIsTheLogOrItsTail([]);
      return;
    }
    var before, more := fragments[..|fragments| - 1], fragments[|fragments| - 1];
    var log, all := Concat(before), Concat(fragments);
    assert all[..|log|] == log;
    PrefixIsWellPaired(all, |log|);
    FeedExactly(before);
    MisreadStep(fragments);
    if Misread(before) {
      AppendToNotice(log, more);
    } else if Misread(fragments) {
      ShowIsTheLogOrItsTail(log);
      AppendToNotice(log, more);
    } else {
      AppendShows(log, more);
    }
  }

  lemma {:induction false} CutsArePrefixes(fragments: seq<Text>, k: nat)
    requires k <= |fragments|
    ensures Concat(fragments[..k]) <= Concat(fragments)
  {
    if k == |fragments| {
      assert fragments[..k] == fragments;
    } else {
      CutsArePrefixes(fragments[..|fragments| - 1], k);
      assert fragments[..|fragments| - 1][..k] == fragments[..k];
    }
  }

  /**
   * Appending any fragments of a log, cut anywhere, shows what one call on the whole log shows,
   * exactly when the log is not misread.
   */
  lemma FragmentsShowTheLog(fragments: seq<Text>)
    requires WellPaired(Concat(fragments))
    ensures Feed(fragments) == Show(Concat(fragments)) <==> !Misread(fragments)
  {
    FeedExactly(fragments);
    var log := Concat(fragments);
    if Misread(fragments) {
      ShowIsTheLogOrItsTail(log);
      NoLowInsideNotice(log, |log| - MAX_CHARS);
      assert |Show(log)| == |NOTICE| + MAX_CHARS;
    }
  }
}
