/** The background fetch bookkeeping of the dashboard: the `shared` dictionary
    that the fetch thread updates, the decision whether a fetch is due, one
    fetch against the document store (whose answer is an input), and one tick
    of the fetch loop in demo or live mode.

    Instants are whole seconds; dates are day numbers. */
module Acquisition {
  import opened Wrappers
  import opened Records

  /** Reads per day after which no query is made. */
  const ReadCeiling: int := 49000
  /** Seconds the quota flag suppresses fetching. */
  const QuotaCooldown: int := 3600
  /** The page size the fetch loop asks for. */
  const FetchLimit: nat := 50
  /** `STATUS_INTERVAL`, the fetch loop's tick and fetch interval. */
  const StatusInterval: int := 5

  /** The fields of the `shared` dictionary. */
  datatype Shared = Shared(
    cachedData: seq<Record>,
    lastFetchTime: Option<int>,
    dailyReads: int,
    fetchCounter: int,
    quotaExceeded: bool,
    quotaExceededTime: Option<int>,
    lastDataUpdate: Option<int>,
    lastReset: int,
    demoMode: bool)

  /** The dictionary as the dashboard creates it on day `today`. */
  function Initial(today: int): Shared
  {
    Shared([], None, 0, 0, false, None, None, today, false)
  }

  /** The quota flag is set and was set less than an hour before `now`. */
  predicate QuotaSuppressed(s: Shared, now: int)
  {
    s.quotaExceeded && s.quotaExceededTime.Some? && now - s.quotaExceededTime.value < QuotaCooldown
  }

  /** `should_fetch_data_thread`: the new dictionary and whether to fetch. */
  function ShouldFetch(s: Shared, now: int, intervalSeconds: int): (r: (Shared, bool))
    ensures QuotaSuppressed(s, now) ==> r == (s, false)
    ensures !QuotaSuppressed(s, now) ==> r.0 == s.(quotaExceeded := false)
    ensures r.1 <==> !QuotaSuppressed(s, now) && (s.lastFetchTime == None || now - s.lastFetchTime.value >= intervalSeconds)
  {
    if s.quotaExceeded && s.quotaExceededTime.Some? && now - s.quotaExceededTime.value < QuotaCooldown then
      (s, false)
    else
      var s1 := s.(quotaExceeded := false);
      match s1.lastFetchTime
      case None => (s1, true)
      case Some(lastFetch) => (s1, now - lastFetch >= intervalSeconds)
  }

  /** ASCII lower-casing, as `str.lower` does for ASCII text. */
  function Lower(s: string): (r: string)
    ensures |r| == |s|
    ensures forall i :: 0 <= i < |s| ==> r[i] == if 'A' <= s[i] <= 'Z' then (s[i] as int + 32) as char else s[i]
  {
    if s == [] then [] else [if 'A' <= s[0] <= 'Z' then (s[0] as int + 32) as char else s[0]] + Lower(s[1..])
  }

  /** `pattern in text` for strings. */
  function Contains(text: string, pattern: string): bool
    decreases |text|
  {
    |pattern| <= |text| && (text[..|pattern|] == pattern || Contains(text[1..], pattern))
  }

  /** `pattern` occurs in `text` starting at index `i`. */
  predicate OccursAt(text: string, pattern: string, i: int)
  {
    0 <= i <= |text| - |pattern| && text[i..i + |pattern|] == pattern
  }

  lemma {:induction false} ContainsIff(text: string, pattern: string)
    ensures Contains(text, pattern) <==> exists i :: OccursAt(text, pattern, i)
    decreases |text|
  {
    if |pattern| <= |text| {
      if text[..|pattern|] == pattern {
        assert OccursAt(text, pattern, 0);
      } else {
        ContainsIff(text[1..], pattern);
        if Contains(text, pattern) {
          var i :| OccursAt(text[1..], pattern, i);
          assert text[1..][i..i + |pattern|] == text[i + 1..i + 1 + |pattern|];
          assert OccursAt(text, pattern, i + 1);
        }
        if i :| OccursAt(text, pattern, i) {
          assert text[1..][i - 1..i - 1 + |pattern|] == text[i..i + |pattern|];
          assert OccursAt(text[1..], pattern, i - 1);
        }
      }
    }
  }

  /** The error text of a failed query mentions the quota, in any letter case. */
  predicate MentionsQuota(message: string)
  {
    Contains(Lower(message), "quota")
  }

  /** The daily reset at the start of `fetch_firestore_data_thread`. */
  function ResetDaily(s: Shared, today: int): (r: Shared)
    ensures r.lastReset == today
    ensures r.dailyReads == if s.lastReset != today then 0 else s.dailyReads
    ensures r.(dailyReads := s.dailyReads, lastReset := s.lastReset) == s
  {
    if s.lastReset != today then s.(dailyReads := 0, lastReset := today) else s
  }

  /** `fetch_firestore_data_thread`: the new dictionary and the data it
      returns. `response` is what the document store answers to a query for
      the `limit` newest readings; it is consulted only if a query is made. */
  function FetchFirestore(s: Shared, now: int, today: int, limit: int, response: Result<seq<Record>>): (r: (Shared, seq<Record>))
    // the data returned is always the cache as it stands afterwards
    ensures r.1 == r.0.cachedData
    ensures r.0.lastReset == today && r.0.demoMode == s.demoMode && r.0.lastDataUpdate == s.lastDataUpdate
    // at the ceiling: no query, the quota flag is raised, nothing else moves
    ensures ResetDaily(s, today).dailyReads >= ReadCeiling ==>
              r.0 == ResetDaily(s, today).(quotaExceeded := true, quotaExceededTime := Some(now))
    // a non-empty page replaces the cache and is charged `limit` reads
    ensures ResetDaily(s, today).dailyReads < ReadCeiling && response.Ok? && response.value != [] ==>
              r.0 == ResetDaily(s, today).(cachedData := response.value, lastFetchTime := Some(now),
                                          dailyReads := ResetDaily(s, today).dailyReads + limit,
                                          fetchCounter := s.fetchCounter + 1)
    // an empty page changes nothing but the daily reset
    ensures ResetDaily(s, today).dailyReads < ReadCeiling && response == Ok([]) ==> r.0 == ResetDaily(s, today)
    // a failure keeps cache, counters and last fetch time; the flag follows the message
    ensures ResetDaily(s, today).dailyReads < ReadCeiling && response.Err? ==>
              r.0 == if MentionsQuota(response.message)
                     then ResetDaily(s, today).(quotaExceeded := true, quotaExceededTime := Some(now))
                     else ResetDaily(s, today)
  {
    var s1 := ResetDaily(s, today);
    if s1.dailyReads >= ReadCeiling then
      (s1.(quotaExceeded := true, quotaExceededTime := Some(now)), s1.cachedData)
    else
      match response
      case Ok(dataList) =>
        if dataList != [] then
          (s1.(cachedData := dataList, lastFetchTime := Some(now), dailyReads := s1.dailyReads + limit,
               fetchCounter := s1.fetchCounter + 1), dataList)
        else
          (s1, s1.cachedData)
      case Err(message) =>
        if MentionsQuota(message) then
          (s1.(quotaExceeded := true, quotaExceededTime := Some(now)), s1.cachedData)
        else
          (s1, s1.cachedData)
  }

  /** What one tick of the fetch loop sees: the clock, the date, the batch the
      demo generator would produce, and the document store's answer. */
  datatype Tick = Tick(now: int, today: int, demoBatch: seq<Record>, response: Result<seq<Record>>)

  /** One iteration of `fetch_loop` with the given fetch interval. */
  function LoopTick(s: Shared, t: Tick, interval: int): (r: Shared)
    ensures r.demoMode == s.demoMode
    // demo mode installs the batch and never touches the quota bookkeeping
    ensures s.demoMode ==>
              r == s.(cachedData := t.demoBatch, fetchCounter := s.fetchCounter + 1, lastDataUpdate := Some(t.now))
    // a live tick that is not due changes at most the quota flag
    ensures !s.demoMode && !ShouldFetch(s, t.now, interval).1 ==> r == ShouldFetch(s, t.now, interval).0
    // a due live tick queries the store for the newest readings and stamps the update time
    ensures !s.demoMode && ShouldFetch(s, t.now, interval).1 ==>
              r == FetchFirestore(ShouldFetch(s, t.now, interval).0, t.now, t.today, FetchLimit, t.response).0.(lastDataUpdate := Some(t.now))
    ensures s.demoMode || ShouldFetch(s, t.now, interval).1 ==> r.lastDataUpdate == Some(t.now)
    // a due live tick under the read ceiling that gets a non-empty page installs it
    ensures !s.demoMode && ShouldFetch(s, t.now, interval).1 && t.response.Ok? && t.response.value != [] &&
            ResetDaily(ShouldFetch(s, t.now, interval).0, t.today).dailyReads < ReadCeiling ==>
              r.cachedData == t.response.value && r.fetchCounter == s.fetchCounter + 1
    ensures r.fetchCounter == s.fetchCounter || r.fetchCounter == s.fetchCounter + 1
  {
    if s.demoMode then
      s.(cachedData := t.demoBatch, fetchCounter := s.fetchCounter + 1, lastDataUpdate := Some(t.now))
    else
      var (s1, due) := ShouldFetch(s, t.now, interval);
      if due then FetchFirestore(s1, t.now, t.today, FetchLimit, t.response).0.(lastDataUpdate := Some(t.now))
      else s1
  }

  /** Successive ticks of the loop. */
  function Run(s: Shared, ticks: seq<Tick>, interval: int): Shared
    decreases |ticks|
  {
    if ticks == [] then s else Run(LoopTick(s, ticks[0], interval), ticks[1..], interval)
  }

  /** The daily-read bound the ceiling guarantees: a query is only made below
      49000 reads, and each adds one page. */
  ghost predicate ReadsBounded(s: Shared)
  {
    0 <= s.dailyReads < ReadCeiling + FetchLimit
  }

  lemma TickKeepsReadsBounded(s: Shared, t: Tick, interval: int)
    requires ReadsBounded(s)
    ensures ReadsBounded(LoopTick(s, t, interval))
  {
  }

  /** However the ticks go, the daily reads never pass the ceiling by more
      than one page. */
  lemma {:induction false} RunKeepsReadsBounded(s: Shared, ticks: seq<Tick>, interval: int)
    requires ReadsBounded(s)
    ensures ReadsBounded(Run(s, ticks, interval))
    decreases |ticks|
  {
    if ticks != [] {
      TickKeepsReadsBounded(s, ticks[0], interval);
      RunKeepsReadsBounded(LoopTick(s, ticks[0], interval), ticks[1..], interval);
    }
  }

  /** The fetch counter counts ticks that installed data: it never decreases
      and rises by at most one per tick. */
  lemma {:induction false} RunCounterMonotone(s: Shared, ticks: seq<Tick>, interval: int)
    ensures s.fetchCounter <= Run(s, ticks, interval).fetchCounter <= s.fetchCounter + |ticks|
    decreases |ticks|
  {
    if ticks != [] {
      RunCounterMonotone(LoopTick(s, ticks[0], interval), ticks[1..], interval);
    }
  }

  /** Within the hour after the quota flag was raised, live ticks make no
      query: data, counters and fetch time stay as they are. */
  lemma {:induction false} QuotaSuppressesFetching(s: Shared, ticks: seq<Tick>, interval: int)
    requires !s.demoMode && s.quotaExceeded && s.quotaExceededTime.Some?
    requires forall i :: 0 <= i < |ticks| ==> ticks[i].now < s.quotaExceededTime.value + QuotaCooldown
    ensures Run(s, ticks, interval) == s
    decreases |ticks|
  {
    if ticks != [] {
      assert LoopTick(s, ticks[0], interval) == s;
      QuotaSuppressesFetching(s, ticks[1..], interval);
    }
  }

  /** A demo batch never costs a read: whatever the ticks, in demo mode the
      reads, the quota flag and the last fetch time stay as they are. */
  lemma {:induction false} DemoRunPreservesQuota(s: Shared, ticks: seq<Tick>, interval: int)
    requires s.demoMode
    ensures var r := Run(s, ticks, interval);
            r.dailyReads == s.dailyReads && r.quotaExceeded == s.quotaExceeded &&
            r.quotaExceededTime == s.quotaExceededTime && r.lastFetchTime == s.lastFetchTime &&
            r.fetchCounter == s.fetchCounter + |ticks|
    ensures ticks != [] ==> Run(s, ticks, interval).cachedData == ticks[|ticks| - 1].demoBatch
    decreases |ticks|
  {
    if ticks != [] {
      DemoRunPreservesQuota(LoopTick(s, ticks[0], interval), ticks[1..], interval);
    }
  }

  /** The `shared` dictionary, updated in place by the fetch thread. */
  class SharedStore {
    var cachedData: seq<Record>
    var lastFetchTime: Option<int>
    var dailyReads: int
    var fetchCounter: int
    var quotaExceeded: bool
    var quotaExceededTime: Option<int>
    var lastDataUpdate: Option<int>
    var lastReset: int
    var demoMode: bool

    function State(): Shared
      reads this
    {
      Shared(cachedData, lastFetchTime, dailyReads, fetchCounter, quotaExceeded, quotaExceededTime,
             lastDataUpdate, lastReset, demoMode)
    }

    /** The read bound holds of every state the store reaches: the
        constructor establishes it and every loop tick keeps it. */
    ghost predicate Valid()
      reads this
    {
      ReadsBounded(State())
    }

    constructor (today: int)
      ensures State() == Initial(today) && Valid()
    {
      cachedData, lastFetchTime, dailyReads, fetchCounter := [], None, 0, 0;
      quotaExceeded, quotaExceededTime, lastDataUpdate := false, None, None;
      lastReset, demoMode := today, false;
    }

    /** The sidebar's demo-mode switch, copied into the dictionary. */
    method SetDemoMode(on: bool)
      modifies this
      ensures State() == old(State()).(demoMode := on)
    {
      demoMode := on;
    }

    /** `should_fetch_data_thread` */
    method ShouldFetchDataThread(now: int, intervalSeconds: int) returns (due: bool)
      modifies this
      ensures (State(), due) == ShouldFetch(old(State()), now, intervalSeconds)
    {
      if quotaExceeded {
        if quotaExceededTime.Some? && now - quotaExceededTime.value < QuotaCooldown {
          return false;
        }
        quotaExceeded := false;
      }
      if lastFetchTime == None {
        return true;
      }
      due := now - lastFetchTime.value >= intervalSeconds;
    }

    /** `fetch_firestore_data_thread` */
    method FetchFirestoreDataThread(now: int, today: int, limit: int, response: Result<seq<Record>>)
      returns (data: seq<Record>)
      modifies this
      ensures (State(), data) == FetchFirestore(old(State()), now, today, limit, response)
    {
      if lastReset != today {
        dailyReads := 0;
        lastReset := today;
      }
      if dailyReads >= ReadCeiling {
        quotaExceeded := true;
        quotaExceededTime := Some(now);
        return cachedData;
      }
      match response
      case Ok(dataList) =>
        if dataList != [] {
          cachedData := dataList;
          lastFetchTime := Some(now);
          dailyReads := dailyReads + limit;
          fetchCounter := fetchCounter + 1;
          return dataList;
        }
        return cachedData;
      case Err(message) =>
        if MentionsQuota(message) {
          quotaExceeded := true;
          quotaExceededTime := Some(now);
        }
        return cachedData;
    }

    /** One iteration of `fetch_loop`. */
    method FetchLoopTick(t: Tick, interval: int)
      modifies this
      ensures State() == LoopTick(old(State()), t, interval)
      ensures old(Valid()) ==> Valid()
    {
      if demoMode {
        cachedData := t.demoBatch;
        fetchCounter := fetchCounter + 1;
        lastDataUpdate := Some(t.now);
      } else {
        var due := ShouldFetchDataThread(t.now, interval);
        if due {
          var _ := FetchFirestoreDataThread(t.now, t.today, FetchLimit, t.response);
          lastDataUpdate := Some(t.now);
        }
      }
    }

    /** `fetch_loop` over a finite run of ticks. */
    method FetchLoop(ticks: seq<Tick>, interval: int)
      requires Valid()
      modifies this
      ensures State() == Run(old(State()), ticks, interval)
      ensures Valid()
    {
      var i := 0;
      while i < |ticks|
        invariant 0 <= i <= |ticks|
        invariant Run(old(State()), ticks, interval) == Run(State(), ticks[i..], interval)
        invariant ReadsBounded(State())
      {
        assert ticks[i..][1..] == ticks[i + 1..];
        TickKeepsReadsBounded(State(), ticks[i], interval);
        FetchLoopTick(ticks[i], interval);
        i := i + 1;
      }
    }
  }
}
