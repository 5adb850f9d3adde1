/** `main` of the local seeding script (`mainApp/scripts/seed-local-db.ts`):
    up to ten connection attempts a second apart, then the four seeders,
    the release of the client and the end of the pool. Whether attempt `k`
    connects is the parameter `connects(k)`. */
module SeedLocalDb {
  import opened Wrappers

  const MAX_RETRIES: nat := 10
  const RETRY_DELAY_MS: nat := 1000

  /** What the script does, in order. */
  datatype Step =
    | Connect(attempt: nat, ok: bool)
    | Sleep(ms: nat)
    | SeedUsers
    | SeedCustomers
    | SeedInvoices
    | SeedRevenue
    | Release
    | EndPool

  const SEEDING: seq<Step> := [SeedUsers, SeedCustomers, SeedInvoices, SeedRevenue, Release, EndPool]

  /** The first attempt from `k` on, below the limit, that connects. */
  function FirstSuccess(connects: nat -> bool, k: nat): (r: Option<nat>)
    ensures r.Some? ==> k <= r.value < MAX_RETRIES && connects(r.value)
    ensures r.Some? ==> forall i :: k <= i < r.value ==> !connects(i)
    ensures r.None? ==> forall i :: k <= i < MAX_RETRIES ==> !connects(i)
    decreases MAX_RETRIES - k
  {
    if k >= MAX_RETRIES then None
    else if connects(k) then Some(k)
    else FirstSuccess(connects, k + 1)
  }

  /** `n` failed attempts, each followed by a one-second sleep. */
  function Failures(n: nat): seq<Step>
  {
    if n == 0 then [] else Failures(n - 1) + [Connect(n - 1, false), Sleep(RETRY_DELAY_MS)]
  }

  /** The whole run of `main`. */
  function SeedTrace(connects: nat -> bool): seq<Step>
  {
    match FirstSuccess(connects, 0)
    case None => Failures(MAX_RETRIES)
    case Some(k) => Failures(k) + [Connect(k, true)] + SEEDING
  }

  lemma {:induction false} FirstSuccessSkips(connects: nat -> bool, j: nat, k: nat)
    requires j <= k <= MAX_RETRIES
    requires forall i :: j <= i < k ==> !connects(i)
    ensures FirstSuccess(connects, j) == FirstSuccess(connects, k)
    decreases k - j
  {
    if j < k {
      FirstSuccessSkips(connects, j + 1, k);
    }
  }

  /** `main`: the retry loop, then the seeding sequence. */
  method Seed(connects: nat -> bool) returns (trace: seq<Step>, retryCount: nat)
    ensures trace == SeedTrace(connects)
    ensures retryCount <= MAX_RETRIES
    ensures FirstSuccess(connects, 0).Some? ==> retryCount == FirstSuccess(connects, 0).value
    ensures FirstSuccess(connects, 0).None? ==> retryCount == MAX_RETRIES
  {
    trace := [];
    retryCount := 0;
    var client := false;
    while retryCount < MAX_RETRIES
      invariant retryCount <= MAX_RETRIES
      invariant forall i :: 0 <= i < retryCount ==> !connects(i)
      invariant !client ==> trace == Failures(retryCount)
      invariant client ==> retryCount < MAX_RETRIES && connects(retryCount) &&
                           trace == Failures(retryCount) + [Connect(retryCount, true)]
      decreases MAX_RETRIES - retryCount, if client then 0 else 1
    {
      if connects(retryCount) {
        trace := trace + [Connect(retryCount, true)];
        client := true;
        break;
      }
      trace := trace + [Connect(retryCount, false)];
      retryCount := retryCount + 1;
      trace := trace + [Sleep(RETRY_DELAY_MS)];
    }
    FirstSuccessSkips(connects, 0, retryCount);
    if !client {
      return;
    }
    trace := trace + SEEDING;
  }

  /** How many steps of a trace satisfy `p`. */
  function Occurrences(trace: seq<Step>, p: Step -> bool): (n: nat)
    ensures n <= |trace|
  {
    if trace == [] then 0 else (if p(trace[0]) then 1 else 0) + Occurrences(trace[1..], p)
  }

  lemma {:induction false} OccurrencesAppend(a: seq<Step>, b: seq<Step>, p: Step -> bool)
    ensures Occurrences(a + b, p) == Occurrences(a, p) + Occurrences(b, p)
  {
    if a != [] {
      assert (a + b)[0] == a[0] && (a + b)[1..] == a[1..] + b;
      OccurrencesAppend(a[1..], b, p);
    } else {
      assert a + b == b;
    }
  }

  predicate IsConnect(s: Step) { s.Connect? }
  predicate IsSleep(s: Step) { s.Sleep? }
  predicate IsSeeding(s: Step) { !s.Connect? && !s.Sleep? }

  /** `n` failures hold `n` attempts, `n` sleeps and nothing else. */
  lemma {:induction false} FailuresCounts(n: nat)
    ensures Occurrences(Failures(n), IsConnect) == n
    ensures Occurrences(Failures(n), IsSleep) == n
    ensures Occurrences(Failures(n), IsSeeding) == 0
  {
    if n > 0 {
      var tail := [Connect(n - 1, false), Sleep(RETRY_DELAY_MS)];
      FailuresCounts(n - 1);
      OccurrencesAppend(Failures(n - 1), tail, IsConnect);
      OccurrencesAppend(Failures(n - 1), tail, IsSleep);
      OccurrencesAppend(Failures(n - 1), tail, IsSeeding);
    }
  }

  /** At most ten attempts; one sleep per failed attempt; when no attempt
      connects, nothing is seeded and the pool is never ended. */
  lemma ConnectionAttemptsBounded(connects: nat -> bool)
    ensures Occurrences(SeedTrace(connects), IsConnect) <= MAX_RETRIES
    ensures FirstSuccess(connects, 0).None? ==>
      Occurrences(SeedTrace(connects), IsConnect) == MAX_RETRIES &&
      Occurrences(SeedTrace(connects), IsSleep) == MAX_RETRIES &&
      Occurrences(SeedTrace(connects), IsSeeding) == 0 &&
      EndPool !in SeedTrace(connects)
    ensures FirstSuccess(connects, 0).Some? ==>
      Occurrences(SeedTrace(connects), IsSleep) == Occurrences(SeedTrace(connects), IsConnect) - 1
  {
    match FirstSuccess(connects, 0)
    case None =>
      FailuresCounts(MAX_RETRIES);
      if EndPool in Failures(MAX_RETRIES) {
        var i :| 0 <= i < |Failures(MAX_RETRIES)| && Failures(MAX_RETRIES)[i] == EndPool;
        OccurrencesSeedingPositive(Failures(MAX_RETRIES), i);
      }
    case Some(k) =>
      FailuresCounts(k);
      OccurrencesAppend(Failures(k), [Connect(k, true)], IsConnect);
      OccurrencesAppend(Failures(k), [Connect(k, true)], IsSleep);
      OccurrencesAppend(Failures(k) + [Connect(k, true)], SEEDING, IsConnect);
      OccurrencesAppend(Failures(k) + [Connect(k, true)], SEEDING, IsSleep);
  }

  lemma {:induction false} OccurrencesSeedingPositive(trace: seq<Step>, i: nat)
    requires i < |trace| && IsSeeding(trace[i])
    ensures Occurrences(trace, IsSeeding) > 0
  {
    if i > 0 {
      OccurrencesSeedingPositive(trace[1..], i - 1);
    }
  }

  /** After a connection the seeders run in order, then the client is
      released and the pool ended, each once. */
  lemma SeedingFollowsConnection(connects: nat -> bool)
    requires FirstSuccess(connects, 0).Some?
    ensures var t := SeedTrace(connects);
      |t| >= |SEEDING| + 1 &&
      t[|t| - |SEEDING| - 1] == Connect(FirstSuccess(connects, 0).value, true) &&
      t[|t| - |SEEDING|..] == [SeedUsers, SeedCustomers, SeedInvoices, SeedRevenue, Release, EndPool]
  {
  }
}
