/** The client that repeats store accesses, and what repeating does to the guarded
    writes of the CONFIG row. */
module RetryClient {
  import opened Records

  datatype ErrorKind =
    | ProvisionedThroughputExceeded | InternalServerError | LimitExceeded | TransactionConflict
    | ConditionalCheckFailed | TransactionCanceled

  /** An error that says itself whether to retry, an error of one of the store's types,
      or such an error inside another one. */
  datatype StoreError = SelfDescribing(retryable: bool) | Bare(kind: ErrorKind) | Wrapped(kind: ErrorKind)

  datatype RetryConfig = RetryConfig(
    maxRetries: int, initialBackoffMs: nat, maxBackoffMs: nat, multiplier: real, retryableErrors: seq<ErrorKind>)

  const DEFAULT_RETRY_CONFIG :=
    RetryConfig(5, 100, 5000, 2.0,
                [ProvisionedThroughputExceeded, InternalServerError, LimitExceeded, TransactionConflict])

  /** IsRetryable. The listed errors are compared by identity, which no received error
      passes, and then by the name of the error's own type, which sees no wrapped error. */
  predicate IsRetryable(cfg: RetryConfig, err: StoreError) {
    match err
    case SelfDescribing(retryable) => retryable
    case Bare(kind) => kind in cfg.retryableErrors
    case Wrapped(_) => false
  }

  // ---- backoff ----

  function Pow(b: real, k: nat): (p: real)
    requires b >= 0.0
    ensures p >= 0.0
  {
    if k == 0 then 1.0 else b * Pow(b, k - 1)
  }

  /** A backoff before it is capped. */
  function Uncapped(cfg: RetryConfig, attempt: nat, jitter: real): (ms: real)
    requires cfg.multiplier >= 0.0 && 0.8 <= jitter <= 1.2
    ensures ms >= 0.0
  {
    cfg.initialBackoffMs as real * Pow(cfg.multiplier, attempt) * jitter
  }

  function Capped(ms: real, max: nat): (whole: nat)
    requires ms >= 0.0
    ensures whole <= max
  {
    (if ms > max as real then max as real else ms).Floor
  }

  /** calculateBackoff, in milliseconds; the jitter lies between 0.8 and 1.2. */
  function Backoff(cfg: RetryConfig, attempt: nat, jitter: real): (ms: nat)
    requires cfg.multiplier >= 0.0 && 0.8 <= jitter <= 1.2
    ensures ms <= cfg.maxBackoffMs
  {
    Capped(Uncapped(cfg, attempt, jitter), cfg.maxBackoffMs)
  }

  lemma Scaled(x: real, a: real, b: real)
    requires x >= 0.0 && a <= b
    ensures x * a <= x * b
  {
  }

  lemma {:induction false} PowGrows(b: real, k: nat, n: nat)
    requires b >= 1.5 && k < n
    ensures Pow(b, n) >= 1.5 * Pow(b, k)
    decreases n
  {
    if n == k + 1 {
      PowGrowsOnce(b, k);
    } else {
      PowGrows(b, k, n - 1);
      PowGrowsOnce(b, n - 1);
    }
  }

  lemma PowGrowsOnce(b: real, k: nat)
    requires b >= 1.5
    ensures Pow(b, k + 1) >= 1.5 * Pow(b, k)
  {
    OneMoreFactor(b, Pow(b, k), Pow(b, k));
  }

  lemma OneMoreFactor(b: real, p: real, q: real)
    requires b >= 1.5 && q >= 0.0 && p >= q
    ensures b * p >= 1.5 * q
  {
    Scaled(p, 1.5, b);
  }

  /** The uncapped backoffs: 1.5 times the power outweighs the jitters. */
  lemma JitterOutweighed(i: real, p: real, q: real, jitter: real, jitter': real)
    requires i >= 0.0 && p >= 0.0 && q >= 1.5 * p && jitter <= 1.2 && 0.8 <= jitter'
    ensures i * p * jitter <= i * q * jitter'
  {
    Scaled(i, 1.5 * p, q);
    Scaled(i * p, jitter, 1.2);
    Scaled(i * q, 0.8, jitter');
    ThreeHalves(i, p);
  }

  lemma ThreeHalves(i: real, p: real)
    ensures i * (1.5 * p) == 1.5 * (i * p)
  {
  }

  lemma UncappedGrows(cfg: RetryConfig, k: nat, n: nat, jitter: real, jitter': real)
    requires cfg.multiplier >= 1.5 && k < n && 0.8 <= jitter <= 1.2 && 0.8 <= jitter' <= 1.2
    ensures Uncapped(cfg, k, jitter) <= Uncapped(cfg, n, jitter')
  {
    PowGrows(cfg.multiplier, k, n);
    JitterOutweighed(cfg.initialBackoffMs as real, Pow(cfg.multiplier, k), Pow(cfg.multiplier, n), jitter, jitter');
  }

  lemma CapKeepsOrder(x: real, y: real, max: nat)
    requires 0.0 <= x <= y
    ensures Capped(x, max) <= Capped(y, max)
  {
  }

  /** A later attempt never waits less, whatever the jitters, if the multiplier is at least 1.5. */
  lemma BackoffGrows(cfg: RetryConfig, k: nat, n: nat, jitter: real, jitter': real)
    requires cfg.multiplier >= 1.5 && k < n && 0.8 <= jitter <= 1.2 && 0.8 <= jitter' <= 1.2
    ensures Backoff(cfg, k, jitter) <= Backoff(cfg, n, jitter')
  {
    UncappedGrows(cfg, k, n, jitter, jitter');
    CapKeepsOrder(Uncapped(cfg, k, jitter), Uncapped(cfg, n, jitter'), cfg.maxBackoffMs);
  }

  /** The same configuration with another multiplier, initial and largest backoff. */
  function Scaling(cfg: RetryConfig, multiplier: real, initial: nat, max: nat): RetryConfig {
    cfg.(multiplier := multiplier, initialBackoffMs := initial, maxBackoffMs := max)
  }

  lemma OneMoreAttempt(cfg: RetryConfig, k: nat, jitter: real, jitter': real)
    requires cfg.multiplier >= 0.0 && 0.8 <= jitter <= 1.2 && 0.8 <= jitter' <= 1.2
    ensures var n, p := cfg.initialBackoffMs as real, Pow(cfg.multiplier, k);
            Uncapped(cfg, k + 1, jitter') == n * p * (cfg.multiplier * jitter')
                && Uncapped(cfg, k, jitter) == n * p * jitter
  {
    assert Pow(cfg.multiplier, k + 1) == cfg.multiplier * Pow(cfg.multiplier, k);
    Regrouped(cfg.initialBackoffMs as real, cfg.multiplier, Pow(cfg.multiplier, k), jitter');
  }

  lemma Regrouped(n: real, b: real, p: real, j: real)
    ensures n * (b * p) * j == n * p * (b * j)
  {
  }

  /** Of two consecutive attempts the later one waits no less, for every initial and every
      largest backoff, if and only if the multiplier makes up for the jitters. */
  lemma NextWaitIsNoLessIff(cfg: RetryConfig, k: nat, jitter: real, jitter': real)
    requires cfg.multiplier > 0.0 && 0.8 <= jitter <= 1.2 && 0.8 <= jitter' <= 1.2
    ensures (forall initial: nat, max: nat ::
               Backoff(Scaling(cfg, cfg.multiplier, initial, max), k, jitter)
               <= Backoff(Scaling(cfg, cfg.multiplier, initial, max), k + 1, jitter'))
            <==> jitter <= cfg.multiplier * jitter'
  {
    if jitter <= cfg.multiplier * jitter' {
      forall initial: nat, max: nat
        ensures Backoff(Scaling(cfg, cfg.multiplier, initial, max), k, jitter)
             <= Backoff(Scaling(cfg, cfg.multiplier, initial, max), k + 1, jitter')
      {
        NextWaitIsNoLess(Scaling(cfg, cfg.multiplier, initial, max), k, jitter, jitter');
      }
    } else {
      var initial, max := NextWaitMayBeLess(cfg, k, jitter, jitter');
    }
  }

  lemma NextWaitIsNoLess(cfg: RetryConfig, k: nat, jitter: real, jitter': real)
    requires cfg.multiplier >= 0.0 && 0.8 <= jitter <= 1.2 && 0.8 <= jitter' <= 1.2
             && jitter <= cfg.multiplier * jitter'
    ensures Backoff(cfg, k, jitter) <= Backoff(cfg, k + 1, jitter')
  {
    OneMoreAttempt(cfg, k, jitter, jitter');
    var n, p := cfg.initialBackoffMs as real, Pow(cfg.multiplier, k);
    Scaled(n, 0.0, p);
    Scaled(n * p, jitter, cfg.multiplier * jitter');
    CapKeepsOrder(Uncapped(cfg, k, jitter), Uncapped(cfg, k + 1, jitter'), cfg.maxBackoffMs);
  }

  /** Otherwise a large enough initial backoff makes the later wait a millisecond shorter. */
  lemma NextWaitMayBeLess(cfg: RetryConfig, k: nat, jitter: real, jitter': real) returns (initial: nat, max: nat)
    requires cfg.multiplier > 0.0 && 0.8 <= jitter <= 1.2 && 0.8 <= jitter' <= 1.2 && jitter > cfg.multiplier * jitter'
    ensures Backoff(Scaling(cfg, cfg.multiplier, initial, max), k, jitter)
          > Backoff(Scaling(cfg, cfg.multiplier, initial, max), k + 1, jitter')
  {
    initial := FarApart(cfg, k, jitter, jitter');
    var wait := Uncapped(Scaling(cfg, cfg.multiplier, initial, 0), k, jitter);
    max := wait.Floor + 1;
    Apart(wait, Uncapped(Scaling(cfg, cfg.multiplier, initial, 0), k + 1, jitter'), max);
    CappedLast(cfg, initial, max, k, jitter);
    CappedLast(cfg, initial, max, k + 1, jitter');
  }

  lemma CappedLast(cfg: RetryConfig, initial: nat, max: nat, k: nat, jitter: real)
    requires cfg.multiplier >= 0.0 && 0.8 <= jitter <= 1.2
    ensures Backoff(Scaling(cfg, cfg.multiplier, initial, max), k, jitter)
         == Capped(Uncapped(Scaling(cfg, cfg.multiplier, initial, 0), k, jitter), max)
  {
  }

  lemma FarApart(cfg: RetryConfig, k: nat, jitter: real, jitter': real) returns (initial: nat)
    requires cfg.multiplier > 0.0 && 0.8 <= jitter <= 1.2 && 0.8 <= jitter' <= 1.2 && jitter > cfg.multiplier * jitter'
    ensures var c := Scaling(cfg, cfg.multiplier, initial, 0);
            Uncapped(c, k + 1, jitter') <= Uncapped(c, k, jitter) - 1.0
  {
    PowPositive(cfg.multiplier, k);
    Positive(cfg.multiplier, jitter');
    initial := LargeEnough(Pow(cfg.multiplier, k), jitter, cfg.multiplier * jitter');
    OneMoreAttempt(Scaling(cfg, cfg.multiplier, initial, 0), k, jitter, jitter');
  }

  lemma Apart(x: real, y: real, max: nat)
    requires 0.0 <= y <= x - 1.0 && max == x.Floor + 1
    ensures Capped(x, max) > Capped(y, max)
  {
  }

  lemma PowPositive(b: real, k: nat)
    requires b > 0.0
    ensures Pow(b, k) > 0.0
  {
    if k > 0 {
      PowPositive(b, k - 1);
      Positive(b, Pow(b, k - 1));
    }
  }

  lemma LargeEnough(p: real, j: real, j': real) returns (n: nat)
    requires p > 0.0 && j > j' > 0.0
    ensures n as real * p * j >= n as real * p * j' + 1.0
    ensures n as real * p * j' >= 0.0
  {
    var gap := p * (j - j');
    Positive(p, j - j');
    n := (1.0 / gap).Floor + 1;
    Scaled(gap, 1.0 / gap, n as real);
    Distributed(n as real, p, j, j');
    Scaled(n as real, 0.0, p);
    Scaled(n as real * p, 0.0, j');
  }

  lemma Positive(x: real, y: real)
    requires x > 0.0 && y > 0.0
    ensures x * y > 0.0
  {
  }

  lemma Distributed(n: real, p: real, j: real, j': real)
    ensures (p * (j - j')) * n == n * p * j - n * p * j'
  {
  }

  // ---- guarded writes ----

  /** A write of the CONFIG row under a condition on its version. */
  datatype Write = Put(rec: GroupConfig) | Move(source: string, target: string, back: bool, version: int)

  function Version(w: Write): int {
    if w.Put? then w.rec.version else w.version
  }

  predicate Allowed(row: Option<GroupConfig>, w: Write) {
    if w.Put? then PutAllowed(row, w.rec) else TransactAllowed(row, w.source, w.version)
  }

  function Written(row: Option<GroupConfig>, w: Write): GroupConfig
    requires Allowed(row, w)
  {
    if w.Put? then PutItem(w.rec)
    else Transferred(row.value, w.source, w.target, w.back, w.version)
  }

  function Apply(row: Option<GroupConfig>, w: Write): Option<GroupConfig> {
    if Allowed(row, w) then Some(Written(row, w)) else row
  }

  function ApplyAll(row: Option<GroupConfig>, ws: seq<Write>): Option<GroupConfig>
    decreases ws
  {
    if ws == [] then row else ApplyAll(Apply(row, ws[0]), ws[1..])
  }

  /** The row has moved past the version a write waits for. */
  predicate Past(row: Option<GroupConfig>, w: Write) {
    row.Some? && row.value.version > Version(w)
  }

  /** Guarded writes never bring an old version back. */
  lemma {:induction false} PastStays(row: Option<GroupConfig>, ws: seq<Write>, w: Write)
    requires Past(row, w)
    ensures Past(ApplyAll(row, ws), w)
    decreases ws
  {
    if ws != [] {
      PastStays(Apply(row, ws[0]), ws[1..], w);
    }
  }

  // ---- retryOperation ----

  /** What meets one attempt: the writes of others before it, how many milliseconds into its
      backoff the context is done, if it is, how the store treats it, the error it reports,
      the jitter. */
  datatype Attempt = Attempt(others: seq<Write>, cancelled: Option<nat>, fate: Fate, error: StoreError, jitter: real)

  datatype Verdict = Succeeded | Failed | Cancelled

  datatype Outcome = Outcome(row: Option<GroupConfig>, verdict: Verdict, calls: nat, sleptMs: nat, effects: nat)

  ghost predicate ScriptOk(cfg: RetryConfig, script: nat -> Attempt) {
    cfg.multiplier >= 0.0 && forall k :: 0.8 <= script(k).jitter <= 1.2
  }

  /** One call of the store: the row after it, and the error it returns. */
  function Call(row: Option<GroupConfig>, w: Write, a: Attempt): (Option<GroupConfig>, Option<StoreError>) {
    if a.fate == Dropped then (row, Some(a.error))
    else if !Allowed(row, w) then (row, Some(Bare(if w.Put? then ConditionalCheckFailed else TransactionCanceled)))
    else (Some(Written(row, w)), if a.fate == Ack then None else Some(a.error))
  }

  function Effects(row: Option<GroupConfig>, w: Write, a: Attempt): nat {
    if a.fate != Dropped && Allowed(row, w) then 1 else 0
  }

  /** The backoff before an attempt, which ends when the context is done. */
  function SleptBefore(cfg: RetryConfig, k: nat, a: Attempt): nat
    requires cfg.multiplier >= 0.0 && 0.8 <= a.jitter <= 1.2
  {
    var backoff := Backoff(cfg, k, a.jitter);
    if a.cancelled.Some? && a.cancelled.value < backoff then a.cancelled.value else backoff
  }

  /** retryOperation from attempt `k` on, as a recursion. */
  ghost function Retried(cfg: RetryConfig, w: Write, row: Option<GroupConfig>, script: nat -> Attempt, k: nat): Outcome
    requires ScriptOk(cfg, script)
    decreases cfg.maxRetries + 1 - k
  {
    if k > cfg.maxRetries then Outcome(row, Failed, 0, 0, 0)
    else
      var a := script(k);
      var met := ApplyAll(row, a.others);
      var sleep := if k > 0 then SleptBefore(cfg, k, a) else 0;
      if k > 0 && a.cancelled.Some? then Outcome(met, Cancelled, 0, sleep, 0)
      else
        var (row', err) := Call(met, w, a);
        var n := Effects(met, w, a);
        if err.None? then Outcome(row', Succeeded, 1, sleep, n)
        else if !IsRetryable(cfg, err.value) then Outcome(row', Failed, 1, sleep, n)
        else
          var rest := Retried(cfg, w, row', script, k + 1);
          Outcome(rest.row, rest.verdict, rest.calls + 1, rest.sleptMs + sleep, rest.effects + n)
  }

  /** retryOperation, the loop. */
  method RetryOperation(cfg: RetryConfig, w: Write, row: Option<GroupConfig>, script: nat -> Attempt)
    returns (outcome: Outcome)
    requires ScriptOk(cfg, script)
    ensures outcome == Retried(cfg, w, row, script, 0)
  {
    var row := row;
    var calls: nat, slept: nat, effects: nat := 0, 0, 0;
    var attempt: nat := 0;
    ghost var all := Retried(cfg, w, row, script, 0);
    while attempt <= cfg.maxRetries
      invariant var rest := Retried(cfg, w, row, script, attempt);
                all == Outcome(rest.row, rest.verdict, rest.calls + calls, rest.sleptMs + slept, rest.effects + effects)
      decreases cfg.maxRetries + 1 - attempt
    {
      var a := script(attempt);
      row := ApplyAll(row, a.others);
      if attempt > 0 {
        slept := slept + SleptBefore(cfg, attempt, a);
        if a.cancelled.Some? {
          return Outcome(row, Cancelled, calls, slept, effects);
        }
      }
      var (row', err) := Call(row, w, a);
      effects := effects + Effects(row, w, a);
      row, calls := row', calls + 1;
      if err.None? {
        return Outcome(row, Succeeded, calls, slept, effects);
      }
      if !IsRetryable(cfg, err.value) {
        return Outcome(row, Failed, calls, slept, effects);
      }
      attempt := attempt + 1;
    }
    return Outcome(row, Failed, calls, slept, effects);
  }

  /** Any number of attempts of one guarded write take effect at most once, between any
      writes of others, and exactly once if they report success. */
  lemma {:induction false} AtMostOneEffect(cfg: RetryConfig, w: Write, row: Option<GroupConfig>,
                                           script: nat -> Attempt, k: nat)
    requires ScriptOk(cfg, script)
    ensures var o := Retried(cfg, w, row, script, k);
            && o.effects <= 1
            && (o.verdict == Succeeded ==> o.effects == 1)
            && (Past(row, w) ==> o.effects == 0)
            && (o.effects == 1 ==> Past(o.row, w))
    decreases cfg.maxRetries + 1 - k
  {
    if k <= cfg.maxRetries {
      var a := script(k);
      var met := ApplyAll(row, a.others);
      if Past(row, w) { PastStays(row, a.others, w); }
      AtMostOneEffect(cfg, w, Call(met, w, a).0, script, k + 1);
      if Past(Call(met, w, a).0, w) { PastAtEnd(cfg, w, Call(met, w, a).0, script, k + 1); }
    }
  }

  lemma {:induction false} PastAtEnd(cfg: RetryConfig, w: Write, row: Option<GroupConfig>, script: nat -> Attempt,
                                     k: nat)
    requires ScriptOk(cfg, script) && Past(row, w)
    ensures Past(Retried(cfg, w, row, script, k).row, w)
    decreases cfg.maxRetries + 1 - k
  {
    if k <= cfg.maxRetries {
      var a := script(k);
      PastStays(row, a.others, w);
      PastAtEnd(cfg, w, Call(ApplyAll(row, a.others), w, a).0, script, k + 1);
    }
  }

  /** How many backoffs can still come: one before each attempt but the first. */
  function Sleeps(cfg: RetryConfig, k: nat): nat {
    if k > cfg.maxRetries then 0 else if k == 0 then cfg.maxRetries else cfg.maxRetries + 1 - k
  }

  lemma OneMoreSleep(n: nat, ms: nat)
    ensures (n + 1) * ms == n * ms + ms
  {
  }

  lemma OneMoreAttemptAtMost(cfg: RetryConfig, w: Write, row: Option<GroupConfig>, script: nat -> Attempt, k: nat)
    requires ScriptOk(cfg, script) && k <= cfg.maxRetries
    ensures var o := Retried(cfg, w, row, script, k);
            var rest := Retried(cfg, w, Call(ApplyAll(row, script(k).others), w, script(k)).0, script, k + 1);
            && o.calls <= rest.calls + 1
            && (k == 0 ==> o.calls > 0 && o.sleptMs <= rest.sleptMs)
            && o.sleptMs <= rest.sleptMs + cfg.maxBackoffMs
  {
  }

  /** The operation is called at most maxRetries + 1 times and sleeps at most maxRetries
      times the largest backoff. */
  lemma {:induction false} RetriesAreBounded(cfg: RetryConfig, w: Write, row: Option<GroupConfig>,
                                             script: nat -> Attempt, k: nat)
    requires ScriptOk(cfg, script)
    ensures var o := Retried(cfg, w, row, script, k);
            var left := if k > cfg.maxRetries then 0 else cfg.maxRetries + 1 - k;
            && o.calls <= left
            && (k == 0 && cfg.maxRetries >= 0 ==> o.calls > 0)
            && o.sleptMs <= Sleeps(cfg, k) * cfg.maxBackoffMs
    decreases cfg.maxRetries + 1 - k
  {
    if k <= cfg.maxRetries {
      var a := script(k);
      OneMoreAttemptAtMost(cfg, w, row, script, k);
      RetriesAreBounded(cfg, w, Call(ApplyAll(row, a.others), w, a).0, script, k + 1);
      if k > 0 { OneMoreSleep(Sleeps(cfg, k + 1), cfg.maxBackoffMs); }
    }
  }

  /** The row that attempt `j` meets, if every attempt before it was made. */
  function RowMet(w: Write, row: Option<GroupConfig>, script: nat -> Attempt, j: nat): Option<GroupConfig> {
    ApplyAll(RowBefore(w, row, script, j), script(j).others)
  }

  function RowBefore(w: Write, row: Option<GroupConfig>, script: nat -> Attempt, j: nat): Option<GroupConfig> {
    if j == 0 then row
    else Call(ApplyAll(RowBefore(w, row, script, j - 1), script(j - 1).others), w, script(j - 1)).0
  }

  /** Attempt `j` takes effect, and its acknowledgement is lost. */
  predicate LosesAck(w: Write, row: Option<GroupConfig>, script: nat -> Attempt, j: nat) {
    script(j).fate == LostAck && Allowed(RowMet(w, row, script, j), w)
  }

  /** Some attempt from `k` on loses its acknowledgement, of `calls` attempts made. */
  ghost predicate SomeAckLost(w: Write, row: Option<GroupConfig>, script: nat -> Attempt, k: nat, calls: nat) {
    exists j {:trigger LosesAck(w, row, script, j)} :: k <= j < k + calls && LosesAck(w, row, script, j)
  }

  /** The outcome from an attempt on, in terms of the attempt and of the outcome from the next on. */
  predicate Continues(w: Write, met: Option<GroupConfig>, a: Attempt, o: Outcome, rest: Outcome) {
    var n := Effects(met, w, a);
    || (o.calls == 0 && o.effects == 0)
    || (o.calls == 1 && o.effects == n && (o.verdict == Succeeded <==> a.fate == Ack && Allowed(met, w)))
    || (o.calls == rest.calls + 1 && o.effects == n + rest.effects && o.verdict == rest.verdict
        && !(a.fate == Ack && Allowed(met, w)))
  }

  lemma RetriedContinues(cfg: RetryConfig, w: Write, row: Option<GroupConfig>, script: nat -> Attempt, k: nat)
    requires ScriptOk(cfg, script) && k <= cfg.maxRetries
    ensures var met := ApplyAll(row, script(k).others);
            Continues(w, met, script(k), Retried(cfg, w, row, script, k),
                      Retried(cfg, w, Call(met, w, script(k)).0, script, k + 1))
  {
  }

  lemma UnreportedStep(w: Write, row: Option<GroupConfig>, script: nat -> Attempt, k: nat, o: Outcome, rest: Outcome)
    requires Continues(w, RowMet(w, row, script, k), script(k), o, rest)
    requires rest.effects <= 1 && (rest.verdict == Succeeded ==> rest.effects == 1)
    requires Past(RowBefore(w, row, script, k + 1), w) ==> rest.effects == 0
    requires rest.effects == 1 && rest.verdict != Succeeded <==> SomeAckLost(w, row, script, k + 1, rest.calls)
    ensures o.effects == 1 && o.verdict != Succeeded <==> SomeAckLost(w, row, script, k, o.calls)
  {
    NextAckLost(w, row, script, k, 0);
    NextAckLost(w, row, script, k, rest.calls);
  }

  lemma {:induction false} UnreportedFrom(cfg: RetryConfig, w: Write, row: Option<GroupConfig>,
                                          script: nat -> Attempt, k: nat)
    requires ScriptOk(cfg, script)
    ensures var o := Retried(cfg, w, RowBefore(w, row, script, k), script, k);
            o.effects == 1 && o.verdict != Succeeded <==> SomeAckLost(w, row, script, k, o.calls)
    decreases cfg.maxRetries + 1 - k
  {
    if k <= cfg.maxRetries {
      var before, after := RowBefore(w, row, script, k), RowBefore(w, row, script, k + 1);
      RetriedContinues(cfg, w, before, script, k);
      AtMostOneEffect(cfg, w, after, script, k + 1);
      UnreportedFrom(cfg, w, row, script, k + 1);
      UnreportedStep(w, row, script, k, Retried(cfg, w, before, script, k), Retried(cfg, w, after, script, k + 1));
    }
  }

  lemma NextAckLost(w: Write, row: Option<GroupConfig>, script: nat -> Attempt, k: nat, n: nat)
    ensures SomeAckLost(w, row, script, k, n + 1) <==>
              LosesAck(w, row, script, k) || SomeAckLost(w, row, script, k + 1, n)
    ensures !SomeAckLost(w, row, script, k, 0) && !SomeAckLost(w, row, script, k + 1, 0)
  {
  }

  /** Of all scripts: the write took effect and success was not reported if and only if
      some attempt that was made met a row that allowed it and lost its acknowledgement. */
  lemma EffectIsUnreportedIff(cfg: RetryConfig, w: Write, row: Option<GroupConfig>, script: nat -> Attempt)
    requires ScriptOk(cfg, script)
    ensures var o := Retried(cfg, w, row, script, 0);
            o.effects == 1 && o.verdict != Succeeded <==> SomeAckLost(w, row, script, 0, o.calls)
  {
    UnreportedFrom(cfg, w, row, script, 0);
  }

  /** A write that took effect can still be reported as failed: the acknowledgement is
      lost, and the retry meets its own effect. */
  lemma EffectReportedAsFailure(rec: GroupConfig)
    ensures exists script: nat -> Attempt ::
              && ScriptOk(DEFAULT_RETRY_CONFIG, script)
              && var o := Retried(DEFAULT_RETRY_CONFIG, Put(rec), Some(rec), script, 0);
                 o.verdict == Failed && o.effects == 1 && o.row == Some(PutItem(rec))
  {
    var script := (k: nat) => Attempt([], None, if k == 0 then LostAck else Ack, Bare(InternalServerError), 1.0);
    var cfg, w, row := DEFAULT_RETRY_CONFIG, Put(rec), Some(PutItem(rec));
    assert IsRetryable(cfg, Bare(InternalServerError)) by { assert cfg.retryableErrors[1] == InternalServerError; }
    assert !IsRetryable(cfg, Bare(ConditionalCheckFailed));
    assert Retried(cfg, w, row, script, 1) == Outcome(row, Failed, 1, Backoff(cfg, 1, 1.0), 0);
    assert Retried(cfg, w, Some(rec), script, 0).effects == 1;
  }
}
