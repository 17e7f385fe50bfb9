/** What a retried operation comes to, from its script alone. */
module RetryOutcomes {
  import opened Records
  import opened RetryClient

  /** The client tries again after an error that says so itself, or one of a listed type. */
  predicate Transient(cfg: RetryConfig, err: StoreError) {
    err == SelfDescribing(true) || exists kind :: kind in cfg.retryableErrors && err == Bare(kind)
  }

  /** The error that attempt `i` gets, if it does not succeed. */
  predicate GetsError(w: Write, row: Option<GroupConfig>, script: nat -> Attempt, i: nat, err: StoreError) {
    if script(i).fate == Dropped || (script(i).fate == LostAck && Allowed(RowMet(w, row, script, i), w))
    then err == script(i).error
    else !Allowed(RowMet(w, row, script, i), w)
         && err == Bare(if w.Put? then ConditionalCheckFailed else TransactionCanceled)
  }

  /** Attempt `i` takes effect and is acknowledged. */
  predicate Succeeds(w: Write, row: Option<GroupConfig>, script: nat -> Attempt, i: nat) {
    script(i).fate == Ack && Allowed(RowMet(w, row, script, i), w)
  }

  /** Attempt `i` gets an error after which the client tries again. */
  ghost predicate FailsForNow(cfg: RetryConfig, w: Write, row: Option<GroupConfig>, script: nat -> Attempt, i: nat) {
    exists err :: GetsError(w, row, script, i, err) && Transient(cfg, err)
  }

  /** After attempt `i` the next one is made, if any are left. */
  ghost predicate GoesOn(cfg: RetryConfig, w: Write, row: Option<GroupConfig>, script: nat -> Attempt, i: nat) {
    FailsForNow(cfg, w, row, script, i) && script(i + 1).cancelled.None?
  }

  /** After attempt `k` all attempts up to `j` are made. */
  ghost predicate Arrives(cfg: RetryConfig, w: Write, row: Option<GroupConfig>, script: nat -> Attempt, k: nat,
                          j: nat)
  {
    forall i :: k <= i < j ==> GoesOn(cfg, w, row, script, i)
  }

  /** The backoffs before the attempts from `k` to `j`. */
  function Slept(cfg: RetryConfig, script: nat -> Attempt, k: nat, j: nat): nat
    requires cfg.multiplier >= 0.0 && forall i :: 0.8 <= script(i).jitter <= 1.2
  {
    if j < k || j == 0 then 0 else Slept(cfg, script, k, j - 1) + SleptBefore(cfg, j, script(j))
  }

  /** Attempt `j` is the last one that is made, and this is the verdict. */
  ghost predicate EndsAt(cfg: RetryConfig, w: Write, row: Option<GroupConfig>, script: nat -> Attempt, k: nat, j: nat,
                         verdict: Verdict)
  {
    && k <= j <= cfg.maxRetries && Arrives(cfg, w, row, script, k, j)
    && match verdict
       case Succeeded => Succeeds(w, row, script, j)
       case Failed => !Succeeds(w, row, script, j) && (FailsForNow(cfg, w, row, script, j) ==> j == cfg.maxRetries)
       case Cancelled => j < cfg.maxRetries && FailsForNow(cfg, w, row, script, j) && script(j + 1).cancelled.Some?
  }

  lemma ErrorOfCall(w: Write, row: Option<GroupConfig>, script: nat -> Attempt, i: nat)
    ensures var err := Call(RowMet(w, row, script, i), w, script(i)).1;
            && (err.None? <==> Succeeds(w, row, script, i))
            && (err.Some? ==> forall e :: GetsError(w, row, script, i, e) <==> e == err.value)
            && (err.None? ==> forall e :: !GetsError(w, row, script, i, e))
  {
  }

  lemma OneCall(cfg: RetryConfig, w: Write, row: Option<GroupConfig>, script: nat -> Attempt, k: nat)
    ensures var err := Call(RowMet(w, row, script, k), w, script(k)).1;
            FailsForNow(cfg, w, row, script, k) <==> err.Some? && IsRetryable(cfg, err.value)
  {
    ErrorOfCall(w, row, script, k);
    var err := Call(RowMet(w, row, script, k), w, script(k)).1;
    if err.Some? {
      assert GetsError(w, row, script, k, err.value);
      assert Transient(cfg, err.value) <==> IsRetryable(cfg, err.value);
    }
  }

  lemma ArrivesLater(cfg: RetryConfig, w: Write, row: Option<GroupConfig>, script: nat -> Attempt, k: nat, j: nat)
    requires k < j
    ensures Arrives(cfg, w, row, script, k, j) <==>
            GoesOn(cfg, w, row, script, k) && Arrives(cfg, w, row, script, k + 1, j)
  {
    if Arrives(cfg, w, row, script, k, j) { assert GoesOn(cfg, w, row, script, k); }
  }

  /** How the outcome from attempt `k` on, which is made, ends in terms of that from the next on. */
  ghost predicate EndsOn(cfg: RetryConfig, w: Write, row: Option<GroupConfig>, script: nat -> Attempt, k: nat,
                         o: Outcome, rest: Outcome)
  {
    if Succeeds(w, row, script, k) then o.verdict == Succeeded && o.calls == 1
    else if !FailsForNow(cfg, w, row, script, k) || k == cfg.maxRetries then o.verdict == Failed && o.calls == 1
    else if script(k + 1).cancelled.Some? then o.verdict == Cancelled && o.calls == 1
    else o.verdict == rest.verdict && o.calls == rest.calls + 1 && rest.calls > 0
  }

  lemma RetriedEndsOn(cfg: RetryConfig, w: Write, row: Option<GroupConfig>, script: nat -> Attempt, k: nat)
    requires ScriptOk(cfg, script) && k <= cfg.maxRetries && (k > 0 ==> script(k).cancelled.None?)
    ensures EndsOn(cfg, w, row, script, k, Retried(cfg, w, RowBefore(w, row, script, k), script, k),
                   Retried(cfg, w, RowBefore(w, row, script, k + 1), script, k + 1))
  {
    OneCall(cfg, w, row, script, k);
    ErrorOfCall(w, row, script, k);
  }

  /** The outcome from attempt `k` on ends as it should. */
  ghost predicate EndIsRight(cfg: RetryConfig, w: Write, row: Option<GroupConfig>, script: nat -> Attempt, k: nat,
                             j: nat, verdict: Verdict, o: Outcome)
    requires k <= j
  {
    o.verdict == verdict && o.calls == j - k + 1 <==> EndsAt(cfg, w, row, script, k, j, verdict)
  }

  lemma EndIsRightBefore(cfg: RetryConfig, w: Write, row: Option<GroupConfig>, script: nat -> Attempt, k: nat, j: nat,
                         verdict: Verdict, o: Outcome, rest: Outcome)
    requires k <= j && k <= cfg.maxRetries && EndsOn(cfg, w, row, script, k, o, rest)
    requires k < j && k < cfg.maxRetries && GoesOn(cfg, w, row, script, k) ==>
               EndIsRight(cfg, w, row, script, k + 1, j, verdict, rest)
    ensures EndIsRight(cfg, w, row, script, k, j, verdict, o)
  {
    if k < j { ArrivesLater(cfg, w, row, script, k, j); }
  }

  /** From attempt `k` on, if it is made. */
  lemma {:induction false} EndsFrom(cfg: RetryConfig, w: Write, row: Option<GroupConfig>, script: nat -> Attempt,
                                    k: nat, j: nat, verdict: Verdict)
    requires ScriptOk(cfg, script) && k <= j && k <= cfg.maxRetries && (k > 0 ==> script(k).cancelled.None?)
    ensures EndIsRight(cfg, w, row, script, k, j, verdict, Retried(cfg, w, RowBefore(w, row, script, k), script, k))
    decreases cfg.maxRetries - k
  {
    RetriedEndsOn(cfg, w, row, script, k);
    if k < j && k < cfg.maxRetries && GoesOn(cfg, w, row, script, k) {
      EndsFrom(cfg, w, row, script, k + 1, j, verdict);
    }
    EndIsRightBefore(cfg, w, row, script, k, j, verdict, Retried(cfg, w, RowBefore(w, row, script, k), script, k),
                     Retried(cfg, w, RowBefore(w, row, script, k + 1), script, k + 1));
  }

  /** For every script, configuration and row: with which verdict a retried operation ends,
      and after which attempt. */
  lemma OperationEndsIff(cfg: RetryConfig, w: Write, row: Option<GroupConfig>, script: nat -> Attempt, j: nat,
                         verdict: Verdict)
    requires ScriptOk(cfg, script) && cfg.maxRetries >= 0
    ensures var o := Retried(cfg, w, row, script, 0);
            o.verdict == verdict && o.calls == j + 1 <==> EndsAt(cfg, w, row, script, 0, j, verdict)
  {
    EndsFrom(cfg, w, row, script, 0, j, verdict);
  }

  lemma SleptLater(cfg: RetryConfig, script: nat -> Attempt, k: nat, j: nat)
    requires ScriptOk(cfg, script) && k <= j
    ensures Slept(cfg, script, k, j)
         == (if k > 0 then SleptBefore(cfg, k, script(k)) else 0) + Slept(cfg, script, k + 1, j)
  {
    if k < j { SleptLater(cfg, script, k, j - 1); }
  }

  /** How long the outcome from attempt `k` on sleeps, in terms of the outcome from the next on. */
  predicate SleepsOn(cfg: RetryConfig, script: nat -> Attempt, k: nat, o: Outcome, rest: Outcome)
    requires cfg.multiplier >= 0.0 && 0.8 <= script(k).jitter <= 1.2
  {
    var sleep := if k > 0 then SleptBefore(cfg, k, script(k)) else 0;
    || (o.calls == 0 && o.verdict == Cancelled && o.sleptMs == sleep)
    || (o.calls == 1 && o.verdict != Cancelled && o.sleptMs == sleep)
    || (o.calls == rest.calls + 1 && o.verdict == rest.verdict && o.sleptMs == rest.sleptMs + sleep)
  }

  lemma RetriedSleepsOn(cfg: RetryConfig, w: Write, row: Option<GroupConfig>, script: nat -> Attempt, k: nat)
    requires ScriptOk(cfg, script) && k <= cfg.maxRetries
    ensures SleepsOn(cfg, script, k, Retried(cfg, w, RowBefore(w, row, script, k), script, k),
                     Retried(cfg, w, RowBefore(w, row, script, k + 1), script, k + 1))
  {
  }

  /** The last attempt whose backoff was begun. */
  function LastBackoff(k: nat, o: Outcome): int {
    k + o.calls - (if o.verdict == Cancelled then 0 else 1)
  }

  /** The outcome from attempt `k` on has slept the backoffs that were begun. */
  predicate SleepIsRight(cfg: RetryConfig, script: nat -> Attempt, k: nat, o: Outcome)
    requires cfg.multiplier >= 0.0 && forall i :: 0.8 <= script(i).jitter <= 1.2
  {
    if k > cfg.maxRetries then o.calls == 0 && o.verdict == Failed && o.sleptMs == 0
    else k <= LastBackoff(k, o) && o.sleptMs == Slept(cfg, script, k, LastBackoff(k, o))
  }

  lemma SleepIsRightBefore(cfg: RetryConfig, script: nat -> Attempt, k: nat, o: Outcome, rest: Outcome)
    requires ScriptOk(cfg, script) && k <= cfg.maxRetries
    requires SleepsOn(cfg, script, k, o, rest) && SleepIsRight(cfg, script, k + 1, rest)
    ensures SleepIsRight(cfg, script, k, o)
  {
    SleptLater(cfg, script, k, k);
    if k <= LastBackoff(k, o) { SleptLater(cfg, script, k, LastBackoff(k, o)); }
  }

  lemma {:induction false} SleepsFrom(cfg: RetryConfig, w: Write, row: Option<GroupConfig>, script: nat -> Attempt,
                                      k: nat)
    requires ScriptOk(cfg, script) && k <= cfg.maxRetries + 1
    ensures SleepIsRight(cfg, script, k, Retried(cfg, w, RowBefore(w, row, script, k), script, k))
    decreases cfg.maxRetries + 1 - k
  {
    if k <= cfg.maxRetries {
      RetriedSleepsOn(cfg, w, row, script, k);
      SleepsFrom(cfg, w, row, script, k + 1);
      SleepIsRightBefore(cfg, script, k, Retried(cfg, w, RowBefore(w, row, script, k), script, k),
                         Retried(cfg, w, RowBefore(w, row, script, k + 1), script, k + 1));
    }
  }

  /** It sleeps exactly the backoffs before its attempts, and the one that was cut short. */
  lemma OperationSleeps(cfg: RetryConfig, w: Write, row: Option<GroupConfig>, script: nat -> Attempt)
    requires ScriptOk(cfg, script) && cfg.maxRetries >= 0
    ensures var o := Retried(cfg, w, row, script, 0);
            o.calls > 0 && o.sleptMs == Slept(cfg, script, 0, if o.verdict == Cancelled then o.calls else o.calls - 1)
  {
    SleepsFrom(cfg, w, row, script, 0);
    RetriesAreBounded(cfg, w, row, script, 0);
  }

  // ---- the default client ----

  const TRANSIENT: set<StoreError> := {
    SelfDescribing(true), Bare(ProvisionedThroughputExceeded), Bare(InternalServerError), Bare(LimitExceeded),
    Bare(TransactionConflict)}

  lemma TransientByDefault(err: StoreError)
    ensures Transient(DEFAULT_RETRY_CONFIG, err) <==> err in TRANSIENT
  {
    var kinds := DEFAULT_RETRY_CONFIG.retryableErrors;
    assert kinds[0] in kinds && kinds[1] in kinds && kinds[2] in kinds && kinds[3] in kinds;
  }

  lemma DroppedIsTriedAgain(w: Write, row: Option<GroupConfig>, script: nat -> Attempt, i: nat)
    requires script(i).fate == Dropped
    ensures FailsForNow(DEFAULT_RETRY_CONFIG, w, row, script, i) <==> script(i).error in TRANSIENT
  {
    TransientByDefault(script(i).error);
    assert GetsError(w, row, script, i, script(i).error);
  }

  lemma RefusedIsFinal(w: Write, row: Option<GroupConfig>, script: nat -> Attempt, i: nat)
    requires script(i).fate != Dropped && !Allowed(RowMet(w, row, script, i), w)
    ensures !FailsForNow(DEFAULT_RETRY_CONFIG, w, row, script, i)
  {
    TransientByDefault(Bare(ConditionalCheckFailed));
    TransientByDefault(Bare(TransactionCanceled));
  }

  lemma LastAttempt(cfg: RetryConfig, w: Write, row: Option<GroupConfig>, script: nat -> Attempt, j: nat)
    requires ScriptOk(cfg, script) && j <= cfg.maxRetries && Arrives(cfg, w, row, script, 0, j)
    ensures var o := Retried(cfg, w, row, script, 0);
            && (Succeeds(w, row, script, j) ==> o.verdict == Succeeded && o.calls == j + 1)
            && (!Succeeds(w, row, script, j) && (FailsForNow(cfg, w, row, script, j) ==> j == cfg.maxRetries) ==>
                  o.verdict == Failed && o.calls == j + 1)
  {
    OperationEndsIff(cfg, w, row, script, j, Succeeded);
    OperationEndsIff(cfg, w, row, script, j, Failed);
  }

  /** However often a write is dropped, up to five times, with errors of the four types: the
      next attempt decides. It succeeds if it is acknowledged on a row that allows it, and
      is the last one if the condition fails, or the error is of no listed type, wrapped, or
      says itself that it is permanent, or no attempt is left. */
  lemma TransientErrorsDoNotMatter(w: Write, row: Option<GroupConfig>, script: nat -> Attempt, j: nat)
    requires ScriptOk(DEFAULT_RETRY_CONFIG, script) && j <= 5
    requires forall i :: 0 <= i < j ==> script(i).fate == Dropped && script(i).error in TRANSIENT
    requires forall i :: 0 < i <= j ==> script(i).cancelled.None?
    ensures var o := Retried(DEFAULT_RETRY_CONFIG, w, row, script, 0);
            var allowed := Allowed(RowMet(w, row, script, j), w);
            && (script(j).fate == Ack && allowed ==> o.verdict == Succeeded && o.calls == j + 1)
            && (script(j).fate != Dropped && !allowed ==> o.verdict == Failed && o.calls == j + 1)
            && (script(j).fate == Dropped && (script(j).error !in TRANSIENT || j == 5) ==>
                  o.verdict == Failed && o.calls == j + 1)
  {
    forall i | 0 <= i < j ensures GoesOn(DEFAULT_RETRY_CONFIG, w, row, script, i) {
      DroppedIsTriedAgain(w, row, script, i);
    }
    LastAttempt(DEFAULT_RETRY_CONFIG, w, row, script, j);
    if script(j).fate == Dropped {
      DroppedIsTriedAgain(w, row, script, j);
    } else if !Allowed(RowMet(w, row, script, j), w) {
      RefusedIsFinal(w, row, script, j);
    }
  }

  /** A write as its caller asked for it: its condition, and the row it leaves. */
  predicate MayWrite(row: Option<GroupConfig>, w: Write) {
    match w
    case Put(rec) => row.Some? ==> row.value.version == rec.version
    case Move(source, _, _, version) => row.Some? && row.value.owner == source && row.value.version == version
  }

  function RowWritten(row: Option<GroupConfig>, w: Write): GroupConfig
    requires MayWrite(row, w)
  {
    match w
    case Put(rec) => rec.(version := rec.version + 1)
    case Move(source, target, back, version) =>
      row.value.(owner := target, previousOwner := if back then "" else source, version := version + 1)
  }

  lemma {:induction false} DroppedLeavesRow(w: Write, row: Option<GroupConfig>, script: nat -> Attempt, j: nat)
    requires forall i :: 0 <= i < j ==> script(i).fate == Dropped && script(i).others == []
    ensures RowBefore(w, row, script, j) == row
  {
    if j > 0 { DroppedLeavesRow(w, row, script, j - 1); }
  }

  lemma SucceedsWith(cfg: RetryConfig, w: Write, row: Option<GroupConfig>, script: nat -> Attempt, k: nat)
    requires ScriptOk(cfg, script) && k <= cfg.maxRetries && (k > 0 ==> script(k).cancelled.None?)
    requires script(k).others == [] && script(k).fate == Ack && MayWrite(row, w)
    ensures Retried(cfg, w, row, script, k).row == Some(RowWritten(row, w))
  {
    assert ApplyAll(row, []) == row;
  }

  /** With nobody else about, a write that is dropped for now up to five times and then
      acknowledged goes through exactly if the row allows it, and leaves the row its caller
      asked for. */
  lemma UndisturbedWrite(w: Write, row: Option<GroupConfig>, script: nat -> Attempt, j: nat)
    requires ScriptOk(DEFAULT_RETRY_CONFIG, script) && j <= 5 && script(j).fate == Ack
    requires forall i :: 0 <= i < j ==> script(i).fate == Dropped && script(i).error in TRANSIENT
    requires forall i :: 0 <= i <= j ==> script(i).cancelled.None? && script(i).others == []
    ensures var o := Retried(DEFAULT_RETRY_CONFIG, w, row, script, 0);
            && o.calls == j + 1
            && (o.verdict == Succeeded <==> MayWrite(row, w))
            && o.row == if MayWrite(row, w) then Some(RowWritten(row, w)) else row
  {
    DroppedLeavesRow(w, row, script, j);
    assert RowMet(w, row, script, j) == row;
    TransientErrorsDoNotMatter(w, row, script, j);
    UndisturbedRow(w, row, script, 0, j);
  }

  lemma {:induction false} UndisturbedRow(w: Write, row: Option<GroupConfig>, script: nat -> Attempt, k: nat, j: nat)
    requires ScriptOk(DEFAULT_RETRY_CONFIG, script) && k <= j <= 5 && script(j).fate == Ack
    requires forall i :: 0 <= i < j ==> script(i).fate == Dropped && script(i).error in TRANSIENT
    requires forall i :: 0 <= i <= j ==> script(i).cancelled.None? && script(i).others == []
    ensures Retried(DEFAULT_RETRY_CONFIG, w, row, script, k).row
         == if MayWrite(row, w) then Some(RowWritten(row, w)) else row
    decreases j - k
  {
    var cfg := DEFAULT_RETRY_CONFIG;
    assert ApplyAll(row, []) == row;
    if k == j {
      if MayWrite(row, w) { SucceedsWith(cfg, w, row, script, k); } else { RefusedLeavesRow(w, row, script, k); }
    } else {
      TransientByDefault(script(k).error);
      DroppedGoesOn(w, row, script, k);
      UndisturbedRow(w, row, script, k + 1, j);
    }
  }

  lemma RefusedLeavesRow(w: Write, row: Option<GroupConfig>, script: nat -> Attempt, k: nat)
    requires ScriptOk(DEFAULT_RETRY_CONFIG, script) && k <= 5 && script(k).fate == Ack && script(k).others == []
    requires script(k).cancelled.None? && !MayWrite(row, w)
    ensures Retried(DEFAULT_RETRY_CONFIG, w, row, script, k).row == row
  {
    TransientByDefault(Bare(ConditionalCheckFailed));
    TransientByDefault(Bare(TransactionCanceled));
    RetryableIsTransient(Bare(if w.Put? then ConditionalCheckFailed else TransactionCanceled));
    assert ApplyAll(row, []) == row;
  }

  lemma RetryableIsTransient(err: StoreError)
    ensures IsRetryable(DEFAULT_RETRY_CONFIG, err) <==> err in TRANSIENT
  {
    TransientByDefault(err);
    assert Transient(DEFAULT_RETRY_CONFIG, err) <==> IsRetryable(DEFAULT_RETRY_CONFIG, err);
  }

  lemma DroppedGoesOn(w: Write, row: Option<GroupConfig>, script: nat -> Attempt, k: nat)
    requires ScriptOk(DEFAULT_RETRY_CONFIG, script) && k < 5 && script(k).fate == Dropped && script(k).others == []
    requires script(k).error in TRANSIENT && script(k).cancelled.None?
    ensures Retried(DEFAULT_RETRY_CONFIG, w, row, script, k).row
         == Retried(DEFAULT_RETRY_CONFIG, w, row, script, k + 1).row
  {
    RetryableIsTransient(script(k).error);
    assert ApplyAll(row, []) == row;
  }

  lemma {:induction false} LaterPowers(k: nat)
    requires k >= 6
    ensures Pow(2.0, k) >= 64.0
  {
    if k == 6 {
      assert Pow(2.0, 3) == 8.0;
    } else {
      LaterPowers(k - 1);
    }
  }

  /** From the sixth attempt on a client with more retries would wait five seconds. */
  lemma LongestWait(k: nat, jitter: real)
    requires k >= 6 && 0.8 <= jitter <= 1.2
    ensures Backoff(DEFAULT_RETRY_CONFIG, k, jitter) == 5000
  {
    LaterPowers(k);
    Scaled(0.8, 6400.0, 100.0 * Pow(2.0, k));
    Scaled(100.0 * Pow(2.0, k), 0.8, jitter);
  }

  /** The wait before the default client's attempt `k`: 100 ms doubled `k` times, give or
      take a fifth, and never more than five seconds. */
  lemma DefaultWait(k: nat, jitter: real)
    requires 1 <= k <= 5 && 0.8 <= jitter <= 1.2
    ensures var ms := Backoff(DEFAULT_RETRY_CONFIG, k, jitter);
            var doubled := [100, 200, 400, 800, 1600, 3200][k];
            doubled * 4 / 5 <= ms <= doubled * 6 / 5
  {
    var p := Pow(2.0, k);
    assert Pow(2.0, 0) == 1.0 && Pow(2.0, 1) == 2.0 && Pow(2.0, 2) == 4.0 && Pow(2.0, 3) == 8.0;
    assert Pow(2.0, 4) == 16.0 && Pow(2.0, 5) == 32.0;
    assert Uncapped(DEFAULT_RETRY_CONFIG, k, jitter) == 100.0 * p * jitter;
  }
}
