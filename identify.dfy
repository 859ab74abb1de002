/**
 * The outcome of identifying a user (go/libkb/identify_outcome.go): the proof checks,
 * key diffs and deletions found while comparing a user's sigchain against a track
 * statement, and what is derived from them: counters, a track status and an error
 * with warnings.
 */
module Identify {
  import opened Wrappers
  import Keybase1

  /** A track diff, observed only through its two methods BreaksTracking and IsSameAsTracked. */
  datatype TrackDiff = TrackDiff(breaksTracking: bool, isSameAsTracked: bool)

  /** A deleted proof; only its display string is observed. */
  datatype TrackDiffDeleted = TrackDiffDeleted(displayString: string)

  /**
   * The result of checking one remote proof. `proofType` and `displayString` are what
   * the check's link answers to GetProofType and ToDisplayString; `err` is nil on success.
   */
  datatype LinkCheckResult = LinkCheckResult(
    proofType: Keybase1.ProofType,
    displayString: string,
    err: Option<string>,
    diff: Option<TrackDiff>,
    remoteDiff: Option<TrackDiff>)

  /** The track statement that was used; its contents are not observed here. */
  datatype TrackLookup = TrackLookup

  datatype IdentifyOutcome = IdentifyOutcome(
    username: string,
    error: Option<string>,
    keyDiffs: seq<Option<TrackDiff>>,
    deleted: seq<TrackDiffDeleted>,
    proofChecks: seq<LinkCheckResult>,
    warnings: seq<string>,
    trackUsed: Option<TrackLookup>,
    trackEqual: bool,
    meSet: bool,
    localOnly: bool,
    approveRemote: bool)

  /** NewIdentifyOutcome: every field at its zero value except MeSet. */
  function NewIdentifyOutcome(m: bool): (o: IdentifyOutcome)
    ensures o.meSet == m
    ensures o.error.None? && o.trackUsed.None?
    ensures o.proofChecks == [] && o.keyDiffs == [] && o.deleted == [] && o.warnings == []
    ensures o.username == "" && !o.trackEqual && !o.localOnly && !o.approveRemote
  {
    IdentifyOutcome("", None, [], [], [], [], None, false, m, false, false)
  }

  // ---------------------------------------------------------------------------
  // Counting

  /** The number of elements of `s` that satisfy `p`. */
  function CountWhere<T>(s: seq<T>, p: T -> bool): (n: nat)
    ensures n <= |s|
  {
    if s == [] then 0
    else CountWhere(s[..|s| - 1], p) + (if p(s[|s| - 1]) then 1 else 0)
  }

  /** The count is positive exactly when some element satisfies `p`. */
  lemma {:induction false} CountWherePositive<T>(s: seq<T>, p: T -> bool)
    ensures CountWhere(s, p) > 0 <==> exists i :: 0 <= i < |s| && p(s[i])
  {
    if s != [] {
      var t := s[..|s| - 1];
      CountWherePositive(t, p);
      if CountWhere(t, p) > 0 {
        var i :| 0 <= i < |t| && p(t[i]);
        assert p(s[i]);
      } else if !p(s[|s| - 1]) {
        forall i | 0 <= i < |s| ensures !p(s[i]) {
          if i < |t| { assert s[i] == t[i]; }
        }
      }
    }
  }

  /** Counting distributes over concatenation. */
  lemma {:induction false} CountWhereAppend<T>(a: seq<T>, b: seq<T>, p: T -> bool)
    ensures CountWhere(a + b, p) == CountWhere(a, p) + CountWhere(b, p)
  {
    if b != [] {
      var b' := b[..|b| - 1];
      assert (a + b)[..|a + b| - 1] == a + b';
      CountWhereAppend(a, b', p);
    } else {
      assert a + b == a;
    }
  }

  /** The `check` closure of NumTrackFailures: a non-nil diff that breaks tracking. */
  predicate Breaks(d: Option<TrackDiff>) {
    d.Some? && d.value.breaksTracking
  }

  /** The `check` closure of NumTrackChanges: a non-nil diff that differs from the track. */
  predicate Changes(d: Option<TrackDiff>) {
    d.Some? && !d.value.isSameAsTracked
  }

  predicate ProofFailed(c: LinkCheckResult) {
    c.err.Some?
  }

  predicate ProofSucceeded(c: LinkCheckResult) {
    c.err.None?
  }

  /** A proof check is one track failure when either of its diffs breaks tracking. */
  predicate CheckBreaks(c: LinkCheckResult) {
    Breaks(c.diff) || Breaks(c.remoteDiff)
  }

  /** A proof check is one track change when either of its diffs differs from the track. */
  predicate CheckChanges(c: LinkCheckResult) {
    Changes(c.diff) || Changes(c.remoteDiff)
  }

  function ProofFailureCount(o: IdentifyOutcome): (n: nat)
    ensures n <= |o.proofChecks|
  {
    CountWhere(o.proofChecks, ProofFailed)
  }

  function ProofSuccessCount(o: IdentifyOutcome): (n: nat)
    ensures n <= |o.proofChecks|
  {
    CountWhere(o.proofChecks, ProofSucceeded)
  }

  function TrackFailureCount(o: IdentifyOutcome): (n: nat)
    ensures n <= |o.proofChecks| + |o.keyDiffs|
  {
    CountWhere(o.proofChecks, CheckBreaks) + CountWhere(o.keyDiffs, Breaks)
  }

  function TrackChangeCount(o: IdentifyOutcome): (n: nat)
    ensures n <= |o.proofChecks| + |o.keyDiffs|
  {
    CountWhere(o.proofChecks, CheckChanges) + CountWhere(o.keyDiffs, Changes)
  }

  function NumDeleted(o: IdentifyOutcome): (n: nat)
    ensures n == 0 <==> o.deleted == []
  {
    |o.deleted|
  }

  method NumProofFailures(o: IdentifyOutcome) returns (nfails: nat)
    ensures nfails == ProofFailureCount(o)
  {
    nfails := 0;
    for i := 0 to |o.proofChecks|
      invariant nfails == CountWhere(o.proofChecks[..i], ProofFailed)
    {
      assert o.proofChecks[..i + 1][..i] == o.proofChecks[..i];
      if o.proofChecks[i].err.Some? {
        nfails := nfails + 1;
      }
    }
    assert o.proofChecks[..|o.proofChecks|] == o.proofChecks;
  }

  method NumProofSuccesses(o: IdentifyOutcome) returns (nsucc: nat)
    ensures nsucc == ProofSuccessCount(o)
  {
    nsucc := 0;
    for i := 0 to |o.proofChecks|
      invariant nsucc == CountWhere(o.proofChecks[..i], ProofSucceeded)
    {
      assert o.proofChecks[..i + 1][..i] == o.proofChecks[..i];
      if o.proofChecks[i].err.None? {
        nsucc := nsucc + 1;
      }
    }
    assert o.proofChecks[..|o.proofChecks|] == o.proofChecks;
  }

  method NumTrackFailures(o: IdentifyOutcome) returns (ntf: nat)
    ensures ntf == TrackFailureCount(o)
  {
    ntf := 0;
    for i := 0 to |o.proofChecks|
      invariant ntf == CountWhere(o.proofChecks[..i], CheckBreaks)
    {
      assert o.proofChecks[..i + 1][..i] == o.proofChecks[..i];
      var c := o.proofChecks[i];
      if Breaks(c.diff) || Breaks(c.remoteDiff) {
        ntf := ntf + 1;
      }
    }
    assert o.proofChecks[..|o.proofChecks|] == o.proofChecks;
    for j := 0 to |o.keyDiffs|
      invariant ntf == CountWhere(o.proofChecks, CheckBreaks) + CountWhere(o.keyDiffs[..j], Breaks)
    {
      assert o.keyDiffs[..j + 1][..j] == o.keyDiffs[..j];
      if Breaks(o.keyDiffs[j]) {
        ntf := ntf + 1;
      }
    }
    assert o.keyDiffs[..|o.keyDiffs|] == o.keyDiffs;
  }

  method NumTrackChanges(o: IdentifyOutcome) returns (ntc: nat)
    ensures ntc == TrackChangeCount(o)
  {
    ntc := 0;
    for i := 0 to |o.proofChecks|
      invariant ntc == CountWhere(o.proofChecks[..i], CheckChanges)
    {
      assert o.proofChecks[..i + 1][..i] == o.proofChecks[..i];
      var c := o.proofChecks[i];
      if Changes(c.diff) || Changes(c.remoteDiff) {
        ntc := ntc + 1;
      }
    }
    assert o.proofChecks[..|o.proofChecks|] == o.proofChecks;
    for j := 0 to |o.keyDiffs|
      invariant ntc == CountWhere(o.proofChecks, CheckChanges) + CountWhere(o.keyDiffs[..j], Changes)
    {
      assert o.keyDiffs[..j + 1][..j] == o.keyDiffs[..j];
      if Changes(o.keyDiffs[j]) {
        ntc := ntc + 1;
      }
    }
    assert o.keyDiffs[..|o.keyDiffs|] == o.keyDiffs;
  }

  /** Every proof check is either a failure or a success, and is counted once. */
  lemma {:induction false} FailuresPlusSuccesses(checks: seq<LinkCheckResult>)
    ensures CountWhere(checks, ProofFailed) + CountWhere(checks, ProofSucceeded) == |checks|
  {
    if checks != [] {
      FailuresPlusSuccesses(checks[..|checks| - 1]);
    }
  }

  /** Failures and successes of an outcome add up to its number of proof checks. */
  lemma ProofCountsPartition(o: IdentifyOutcome)
    ensures ProofFailureCount(o) + ProofSuccessCount(o) == |o.proofChecks|
  {
    FailuresPlusSuccesses(o.proofChecks);
  }

  /**
   * Track failures: at most one per proof check (however many of its diffs break) plus one
   * per breaking key diff, so never more than the checks and key diffs together; and a
   * failure is counted only where some non-nil diff breaks tracking.
   */
  lemma TrackFailureBounds(o: IdentifyOutcome)
    ensures TrackFailureCount(o) <= |o.proofChecks| + |o.keyDiffs|
    ensures TrackFailureCount(o) > 0 <==>
      (exists i :: 0 <= i < |o.proofChecks| && CheckBreaks(o.proofChecks[i])) ||
      (exists j :: 0 <= j < |o.keyDiffs| && Breaks(o.keyDiffs[j]))
    ensures (forall i :: 0 <= i < |o.proofChecks| ==> o.proofChecks[i].diff.None? && o.proofChecks[i].remoteDiff.None?) &&
            (forall j :: 0 <= j < |o.keyDiffs| ==> o.keyDiffs[j].None?)
            ==> TrackFailureCount(o) == 0
  {
    CountWherePositive(o.proofChecks, CheckBreaks);
    CountWherePositive(o.keyDiffs, Breaks);
  }

  /** Track changes follow the same at-most-once-per-check rule and bound. */
  lemma TrackChangeBounds(o: IdentifyOutcome)
    ensures TrackChangeCount(o) <= |o.proofChecks| + |o.keyDiffs|
    ensures TrackChangeCount(o) > 0 <==>
      (exists i :: 0 <= i < |o.proofChecks| && CheckChanges(o.proofChecks[i])) ||
      (exists j :: 0 <= j < |o.keyDiffs| && Changes(o.keyDiffs[j]))
    ensures (forall i :: 0 <= i < |o.proofChecks| ==> o.proofChecks[i].diff.None? && o.proofChecks[i].remoteDiff.None?) &&
            (forall j :: 0 <= j < |o.keyDiffs| ==> o.keyDiffs[j].None?)
            ==> TrackChangeCount(o) == 0
  {
    CountWherePositive(o.proofChecks, CheckChanges);
    CountWherePositive(o.keyDiffs, Changes);
  }

  // ---------------------------------------------------------------------------
  // Track status

  /** The verdicts that TrackStatus can give when no track statement was used. */
  function NewStatus(o: IdentifyOutcome): (s: Keybase1.TrackStatus)
    ensures s in {Keybase1.NewOk, Keybase1.NewZeroProofs, Keybase1.NewFailProofs}
    ensures s == Keybase1.NewOk ==> ProofSuccessCount(o) > 0 && ProofFailureCount(o) == 0
  {
    if ProofSuccessCount(o) == 0 then Keybase1.NewZeroProofs
    else if ProofFailureCount(o) > 0 then Keybase1.NewFailProofs
    else Keybase1.NewOk
  }

  /**
   * TrackStatus, with the tests in the source's order. The source's second test,
   * NumTrackChanges() == 0, is always true when the first fails; the fall-through
   * after it is kept.
   */
  function TrackStatus(o: IdentifyOutcome): (s: Keybase1.TrackStatus)
    ensures s == Keybase1.UpdateBroken <==> TrackFailureCount(o) > 0 || |o.deleted| > 0
    ensures o.trackUsed.Some? ==> s in {Keybase1.UpdateBroken, Keybase1.UpdateNewProofs, Keybase1.UpdateOk}
    ensures o.trackUsed.None? ==> s in {Keybase1.UpdateBroken, Keybase1.NewOk, Keybase1.NewZeroProofs, Keybase1.NewFailProofs}
  {
    if TrackFailureCount(o) > 0 || NumDeleted(o) > 0 then Keybase1.UpdateBroken
    else if o.trackUsed.Some? then
      if TrackChangeCount(o) > 0 then Keybase1.UpdateNewProofs
      else if TrackChangeCount(o) == 0 then Keybase1.UpdateOk
      else NewStatus(o)
    else NewStatus(o)
  }

  /** Something breaks tracking: a proof check or key diff that breaks it, or a deletion. */
  ghost predicate Broken(o: IdentifyOutcome) {
    (exists i :: 0 <= i < |o.proofChecks| && CheckBreaks(o.proofChecks[i])) ||
    (exists j :: 0 <= j < |o.keyDiffs| && Breaks(o.keyDiffs[j])) ||
    |o.deleted| > 0
  }

  /** UPDATE_BROKEN is given exactly when something breaks tracking, whatever else holds. */
  lemma TrackStatusBroken(o: IdentifyOutcome)
    ensures TrackStatus(o) == Keybase1.UpdateBroken <==> Broken(o)
  {
    TrackFailureBounds(o);
  }

  /**
   * With a track statement in use, the verdict is one of the UPDATE_* values: UPDATE_NEW_PROOFS
   * exactly when something unbroken differs from the track, else UPDATE_OK.
   */
  lemma TrackStatusWithTrack(o: IdentifyOutcome)
    requires o.trackUsed.Some?
    ensures TrackStatus(o) in {Keybase1.UpdateBroken, Keybase1.UpdateNewProofs, Keybase1.UpdateOk}
    ensures !Broken(o) ==>
      (TrackStatus(o) == Keybase1.UpdateNewProofs <==>
        (exists i :: 0 <= i < |o.proofChecks| && CheckChanges(o.proofChecks[i])) ||
        (exists j :: 0 <= j < |o.keyDiffs| && Changes(o.keyDiffs[j])))
  {
    TrackFailureBounds(o);
    TrackChangeBounds(o);
  }

  /**
   * Without a track statement and with nothing broken: NEW_ZERO_PROOFS when no proof
   * succeeded, NEW_FAIL_PROOFS when some succeeded and some failed, NEW_OK when there
   * are proof checks and all succeeded.
   */
  lemma TrackStatusWithoutTrack(o: IdentifyOutcome)
    requires o.trackUsed.None? && !Broken(o)
    ensures TrackStatus(o) == Keybase1.NewZeroProofs <==>
      forall i :: 0 <= i < |o.proofChecks| ==> ProofFailed(o.proofChecks[i])
    ensures TrackStatus(o) == Keybase1.NewFailProofs <==>
      (exists i :: 0 <= i < |o.proofChecks| && ProofSucceeded(o.proofChecks[i])) &&
      (exists i :: 0 <= i < |o.proofChecks| && ProofFailed(o.proofChecks[i]))
    ensures TrackStatus(o) == Keybase1.NewOk <==>
      |o.proofChecks| > 0 && forall i :: 0 <= i < |o.proofChecks| ==> ProofSucceeded(o.proofChecks[i])
  {
    TrackFailureBounds(o);
    CountWherePositive(o.proofChecks, ProofFailed);
    CountWherePositive(o.proofChecks, ProofSucceeded);
    if |o.proofChecks| > 0 {
      assert ProofFailed(o.proofChecks[0]) || ProofSucceeded(o.proofChecks[0]);
    }
  }

  /** A fresh outcome has no proofs and no track statement, so it is NEW_ZERO_PROOFS. */
  lemma NewOutcomeStatus(m: bool)
    ensures TrackStatus(NewIdentifyOutcome(m)) == Keybase1.NewZeroProofs
  {
  }

  // ---------------------------------------------------------------------------
  // Error and warnings

  /**
   * A problem found in an outcome. The source renders each as a string (a deletion's
   * display string, "PROBLEM: %d proof%s failed remote checks", "%d track component%s
   * failed"); the model keeps what each message is about.
   */
  datatype Problem =
    | DeletedProof(display: string)
    | ProofsFailed(count: nat)
    | TrackComponentsFailed(count: nat)

  /** The error returned: the outcome's own error, or the collected problems joined with ";". */
  datatype IdentifyError =
    | Given(message: string)
    | Problems(problems: seq<Problem>)

  /** One problem per deletion, in order. */
  function DeletionProblems(deleted: seq<TrackDiffDeleted>): (ps: seq<Problem>)
    ensures |ps| == |deleted|
    ensures forall i :: 0 <= i < |deleted| ==> ps[i] == DeletedProof(deleted[i].displayString)
  {
    seq(|deleted|, i requires 0 <= i < |deleted| => DeletedProof(deleted[i].displayString))
  }

  /** The problems passed to softErr: the deletions, then the proof failures if any. */
  function SoftProblems(o: IdentifyOutcome): (ps: seq<Problem>)
    ensures |ps| == |o.deleted| + (if ProofFailureCount(o) > 0 then 1 else 0)
    ensures ps[..|o.deleted|] == DeletionProblems(o.deleted)
  {
    DeletionProblems(o.deleted) +
    (if ProofFailureCount(o) > 0 then [ProofsFailed(ProofFailureCount(o))] else [])
  }

  /** The problem that always goes into the error: the track failures if any. */
  function HardProblems(o: IdentifyOutcome): (ps: seq<Problem>)
    ensures ps == [] <==> TrackFailureCount(o) == 0
  {
    if TrackFailureCount(o) > 0 then [TrackComponentsFailed(TrackFailureCount(o))] else []
  }

  /**
   * What GetErrorAndWarnings returns: the outcome's own error alone when it has one;
   * otherwise the soft problems go into the error when `strict` and into the warnings
   * when not, the hard problems always into the error, and the error is nil when it
   * collected nothing.
   */
  function ErrorAndWarnings(o: IdentifyOutcome, strict: bool): (r: (seq<Problem>, Option<IdentifyError>))
    ensures o.error.Some? ==> r == ([], Some(Given(o.error.value)))
    ensures strict ==> r.0 == []
    ensures r.1.Some? && r.1.value.Problems? ==> r.1.value.problems != [] && o.error.None?
    ensures o.error.None? && TrackFailureCount(o) > 0 ==> r.1.Some?
  {
    if o.error.Some? then ([], Some(Given(o.error.value)))
    else
      var probs := (if strict then SoftProblems(o) else []) + HardProblems(o);
      (if strict then [] else SoftProblems(o), if probs == [] then None else Some(Problems(probs)))
  }

  method GetErrorAndWarnings(o: IdentifyOutcome, strict: bool) returns (warnings: seq<Problem>, err: Option<IdentifyError>)
    ensures (warnings, err) == ErrorAndWarnings(o, strict)
  {
    warnings := [];
    if o.error.Some? {
      err := Some(Given(o.error.value));
      return;
    }
    var probs: seq<Problem> := [];
    for k := 0 to |o.deleted|
      invariant strict ==> probs == DeletionProblems(o.deleted[..k]) && warnings == []
      invariant !strict ==> probs == [] && warnings == DeletionProblems(o.deleted[..k])
    {
      var p := DeletedProof(o.deleted[k].displayString);
      assert DeletionProblems(o.deleted[..k + 1]) == DeletionProblems(o.deleted[..k]) + [p];
      if strict {
        probs := probs + [p];
      } else {
        warnings := warnings + [p];
      }
    }
    assert o.deleted[..|o.deleted|] == o.deleted;
    var nfails := NumProofFailures(o);
    if nfails > 0 {
      var p := ProofsFailed(nfails);
      if strict {
        probs := probs + [p];
      } else {
        warnings := warnings + [p];
      }
    }
    var ntf := NumTrackFailures(o);
    if ntf > 0 {
      probs := probs + [TrackComponentsFailed(ntf)];
    }
    assert strict ==> probs == SoftProblems(o) + HardProblems(o) && warnings == [];
    assert !strict ==> probs == HardProblems(o) && warnings == SoftProblems(o);
    if |probs| > 0 {
      err := Some(Problems(probs));
    } else {
      err := None;
    }
  }

  method GetError(o: IdentifyOutcome) returns (err: Option<IdentifyError>)
    ensures err == ErrorAndWarnings(o, true).1
  {
    var _, e := GetErrorAndWarnings(o, true);
    err := e;
  }

  /** GetErrorLax as written: it passes strict = true, like GetError. */
  method GetErrorLax(o: IdentifyOutcome) returns (warnings: seq<Problem>, err: Option<IdentifyError>)
    ensures (warnings, err) == ErrorAndWarnings(o, true)
    ensures warnings == []
  {
    warnings, err := GetErrorAndWarnings(o, true);
  }

  /** GetErrorLax as its name and its warnings result indicate: strict = false. */
  method GetErrorLaxIntended(o: IdentifyOutcome) returns (warnings: seq<Problem>, err: Option<IdentifyError>)
    ensures (warnings, err) == ErrorAndWarnings(o, false)
  {
    warnings, err := GetErrorAndWarnings(o, false);
  }

  /** A set Error is returned alone, with no warnings, whether strict or not. */
  lemma GivenErrorWins(o: IdentifyOutcome, strict: bool)
    requires o.error.Some?
    ensures ErrorAndWarnings(o, strict) == ([], Some(Given(o.error.value)))
  {
  }

  /**
   * Strict routing: no warnings; the error lists one problem per deletion, then the proof
   * failures, then the track failures, and it is nil exactly when none of these occurred.
   */
  lemma {:induction false} StrictRouting(o: IdentifyOutcome)
    requires o.error.None?
    ensures ErrorAndWarnings(o, true).0 == []
    ensures ErrorAndWarnings(o, true).1.None? <==>
      o.deleted == [] &&
      (forall i :: 0 <= i < |o.proofChecks| ==> ProofSucceeded(o.proofChecks[i])) &&
      !(exists i :: 0 <= i < |o.proofChecks| && CheckBreaks(o.proofChecks[i])) &&
      !(exists j :: 0 <= j < |o.keyDiffs| && Breaks(o.keyDiffs[j]))
    ensures ErrorAndWarnings(o, true).1.Some? ==>
      ErrorAndWarnings(o, true).1 == Some(Problems(SoftProblems(o) + HardProblems(o)))
  {
    TrackFailureBounds(o);
    CountWherePositive(o.proofChecks, ProofFailed);
    forall i | 0 <= i < |o.proofChecks| ensures ProofFailed(o.proofChecks[i]) || ProofSucceeded(o.proofChecks[i]) {
    }
  }

  /**
   * Lax routing: deletions and proof failures become warnings; the error holds at most the
   * track-failure problem, and is nil exactly when nothing breaks tracking in a diff.
   */
  lemma LaxRouting(o: IdentifyOutcome)
    requires o.error.None?
    ensures ErrorAndWarnings(o, false).0 == SoftProblems(o)
    ensures ErrorAndWarnings(o, false).1.None? <==>
      !(exists i :: 0 <= i < |o.proofChecks| && CheckBreaks(o.proofChecks[i])) &&
      !(exists j :: 0 <= j < |o.keyDiffs| && Breaks(o.keyDiffs[j]))
    ensures ErrorAndWarnings(o, false).1.Some? ==>
      ErrorAndWarnings(o, false).1 == Some(Problems([TrackComponentsFailed(TrackFailureCount(o))]))
  {
    TrackFailureBounds(o);
    assert [] + HardProblems(o) == HardProblems(o);
  }

  /** Every problem is reported exactly once, in the warnings or in the error. */
  lemma NothingLost(o: IdentifyOutcome, strict: bool)
    requires o.error.None?
    ensures var (w, e) := ErrorAndWarnings(o, strict);
      multiset(w) + (if e.Some? then multiset(e.value.problems) else multiset{}) ==
      multiset(SoftProblems(o) + HardProblems(o))
  {
  }

  /**
   * The as-written GetErrorLax can never return a warning, and it reports a lone deletion as
   * an error, where the lax routing reports it as a warning.
   */
  lemma LaxAsWrittenIsStrict()
    ensures var o := NewIdentifyOutcome(false).(deleted := [TrackDiffDeleted("twitter")]);
      ErrorAndWarnings(o, true) == ([], Some(Problems([DeletedProof("twitter")]))) &&
      ErrorAndWarnings(o, false) == ([DeletedProof("twitter")], None)
  {
    var o := NewIdentifyOutcome(false).(deleted := [TrackDiffDeleted("twitter")]);
    assert DeletionProblems(o.deleted) == [DeletedProof("twitter")];
    assert ProofFailureCount(o) == 0 && TrackFailureCount(o) == 0;
    assert SoftProblems(o) == [DeletedProof("twitter")];
    assert HardProblems(o) == [];
  }

  // ---------------------------------------------------------------------------
  // Error text

  /** strings.Join. */
  function Join(parts: seq<string>, sep: string): (r: string)
    ensures |parts| == 0 ==> r == ""
    ensures |parts| > 0 ==> parts[0] <= r && |r| >= |parts[0]| + (|parts| - 1) * |sep|
  {
    if |parts| == 0 then ""
    else if |parts| == 1 then parts[0]
    else Join(parts[..|parts| - 1], sep) + sep + parts[|parts| - 1]
  }

  /**
   * The text of the returned error, given how each problem is rendered (the formatting
   * helpers GiveMeAnS and ToDisplayString are not part of this model).
   */
  function ErrorText(e: IdentifyError, render: Problem -> string): (r: string)
    ensures e.Given? ==> r == e.message
    ensures e.Problems? && |e.problems| > 0 ==> render(e.problems[0]) <= r
  {
    match e
    case Given(m) => m
    case Problems(ps) => Join(seq(|ps|, i requires 0 <= i < |ps| => render(ps[i])), ";")
  }

  predicate IsSemicolon(c: char) {
    c == ';'
  }

  /**
   * When no part contains ';', the joined text has exactly one ';' between each two
   * consecutive parts.
   */
  lemma {:induction false} JoinSeparators(parts: seq<string>)
    requires forall i :: 0 <= i < |parts| ==> CountWhere(parts[i], IsSemicolon) == 0
    ensures |parts| > 0 ==> CountWhere(Join(parts, ";"), IsSemicolon) == |parts| - 1
  {
    if |parts| > 1 {
      var init := parts[..|parts| - 1];
      JoinSeparators(init);
      CountWhereAppend(Join(init, ";"), ";", IsSemicolon);
      CountWhereAppend(Join(init, ";") + ";", parts[|parts| - 1], IsSemicolon);
      assert CountWhere(";", IsSemicolon) == 1 by {
        assert ";"[..0] == [];
      }
    }
  }

  /**
   * The error of a strict call that collected problems, each rendered without ';', reads as
   * one message per problem separated by ';'.
   */
  lemma ErrorTextSeparators(o: IdentifyOutcome, render: Problem -> string)
    requires o.error.None?
    requires forall p :: CountWhere(render(p), IsSemicolon) == 0
    ensures var (_, err) := ErrorAndWarnings(o, true);
      err.Some? ==> CountWhere(ErrorText(err.value, render), IsSemicolon) == |SoftProblems(o)| + |HardProblems(o)| - 1
  {
    var probs := SoftProblems(o) + HardProblems(o);
    assert ErrorAndWarnings(o, true).1 == if probs == [] then None else Some(Problems(probs));
    var parts := seq(|probs|, i requires 0 <= i < |probs| => render(probs[i]));
    JoinSeparators(parts);
  }
}
