/** The sliding-window rate limiter (pkg/middleware/ratelimit.go:89-118). Times are
    milliseconds. */
module RateLimit {
  import opened Common

  const Window := 1000
  const Ttl := 2000      // window + 1000, set by PEXPIRE

  datatype Entry = Entry(at: int, number: nat)

  /** The sorted set, lowest score first, the sequence counter, and when each key was last
      given its time to live. */
  datatype Limiter = Limiter(entries: seq<Entry>, sequence: nat, touched: int, counted: int)

  datatype Answer = Answer(count: nat, retrySeconds: int)

  function Prune(entries: seq<Entry>, upTo: int): seq<Entry> {
    if entries == [] then []
    else if entries[0].at <= upTo then Prune(entries[1..], upTo)
    else [entries[0]] + Prune(entries[1..], upTo)
  }

  /** Keys whose time to live ran out are gone before the script starts. */
  function Alive(l: Limiter, now: int): Limiter {
    l.(entries := if now - l.touched >= Ttl then [] else l.entries,
       sequence := if now - l.counted >= Ttl then 0 else l.sequence)
  }

  function CeilSeconds(ms: int): int {
    (ms + 999) / 1000
  }

  predicate Admits(l: Limiter, now: int, limit: int) {
    |Prune(Alive(l, now).entries, now - Window)| < limit
  }

  /** Milliseconds until the oldest admission leaves the window. */
  function RetryMs(l: Limiter, now: int): int {
    var kept := Prune(Alive(l, now).entries, now - Window);
    if kept == [] then Window else Max(1, kept[0].at + Window - now)
  }

  function Step(l: Limiter, now: int, limit: int): (Limiter, Answer) {
    var a := Alive(l, now);
    var kept := Prune(a.entries, now - Window);
    if |kept| >= limit
    then (Limiter(kept, a.sequence, now, a.counted), Answer(|kept| + 1, CeilSeconds(RetryMs(l, now))))
    else (Limiter(kept + [Entry(now, a.sequence + 1)], a.sequence + 1, now, now), Answer(|kept| + 1, 0))
  }

  /** The script, with its pruning loop, on the keys of one caller. */
  class Keys {
    var entries: seq<Entry>
    var sequence: nat
    var touched: int
    var counted: int

    ghost function View(): Limiter reads this {
      Limiter(entries, sequence, touched, counted)
    }

    constructor (now: int)
      ensures View() == Limiter([], 0, now, now)
    {
      entries, sequence, touched, counted := [], 0, now, now;
    }

    method Increment(now: int, limit: int) returns (count: nat, retrySeconds: int)
      requires Sorted(entries)
      modifies this
      ensures (View(), Answer(count, retrySeconds)) == Step(old(View()), now, limit)
    {
      var list := if now - touched >= Ttl then [] else entries;
      var number := if now - counted >= Ttl then 0 else sequence;
      list := DropOld(list, now - Window);
      touched := now;
      count := |list| + 1;
      if |list| >= limit {
        var retry := if list == [] then Window else Max(1, list[0].at + Window - now);
        entries, sequence := list, number;
        retrySeconds := CeilSeconds(retry);
      } else {
        entries, sequence, counted := list + [Entry(now, number + 1)], number + 1, now;
        retrySeconds := 0;
      }
    }
  }

  /** ZREMRANGEBYSCORE key -inf cut */
  method DropOld(list: seq<Entry>, cut: int) returns (kept: seq<Entry>)
    requires Sorted(list)
    ensures kept == Prune(list, cut)
  {
    var drop := 0;
    while drop < |list| && list[drop].at <= cut
      invariant 0 <= drop <= |list|
      invariant Prune(list, cut) == Prune(list[drop..], cut)
    {
      assert list[drop..][1..] == list[drop + 1..];
      drop := drop + 1;
    }
    NothingToPrune(list[drop..], cut);
    kept := list[drop..];
  }

  predicate Sorted(entries: seq<Entry>) {
    forall i, j | 0 <= i < j < |entries| :: entries[i].at <= entries[j].at
  }

  lemma {:induction false} NothingToPrune(entries: seq<Entry>, upTo: int)
    requires Sorted(entries) && (entries == [] || entries[0].at > upTo)
    ensures Prune(entries, upTo) == entries
  {
    if entries != [] {
      assert Sorted(entries[1..]);
      NothingToPrune(entries[1..], upTo);
    }
  }

  // --------------------------------------------------------------------- runs

  /** The limiter together with the full log of admission times. */
  datatype Run = Run(l: Limiter, log: seq<int>, now: int)

  function Call(r: Run, now: int, limit: int): Run {
    Run(Step(r.l, now, limit).0, if Admits(r.l, now, limit) then r.log + [now] else r.log, now)
  }

  /** Calls at the given times, which never go back. */
  function Calls(r: Run, times: seq<int>, limit: int): Run {
    if times == [] then r else Call(Calls(r, times[..|times| - 1], limit), times[|times| - 1], limit)
  }

  predicate NonDecreasing(times: seq<int>) {
    forall i, j | 0 <= i < j < |times| :: times[i] <= times[j]
  }

  function Start(now: int): Run {
    Run(Limiter([], 0, now, now), [], now)
  }

  /** Entries of the full log after `cut`. */
  function Recent(log: seq<int>, cut: int): seq<int> {
    if log == [] then []
    else if log[0] <= cut then Recent(log[1..], cut)
    else [log[0]] + Recent(log[1..], cut)
  }

  function Times(entries: seq<Entry>): seq<int> {
    if entries == [] then [] else [entries[0].at] + Times(entries[1..])
  }

  predicate LogOk(r: Run) {
    && NonDecreasing(r.log) && r.l.counted <= r.l.touched <= r.now
    && (forall t | t in r.log :: t <= r.l.counted)
  }

  ghost predicate SetOk(r: Run) {
    && Sorted(r.l.entries)
    && Times(r.l.entries) == Recent(r.log, r.l.touched - Window)
    && (forall i, j | 0 <= i < j < |r.l.entries| :: r.l.entries[i] != r.l.entries[j])
    && (forall e | e in r.l.entries :: e.at <= r.l.counted && (e.at == r.l.counted ==> e.number <= r.l.sequence))
  }

  /** The set stands for the log restricted to the window, and its members are distinct. */
  ghost predicate Inv(r: Run) {
    LogOk(r) && SetOk(r)
  }

  lemma {:induction false} RecentTwice(log: seq<int>, cut: int, later: int)
    requires cut <= later
    ensures Recent(Recent(log, cut), later) == Recent(log, later)
  {
    if log != [] {
      RecentTwice(log[1..], cut, later);
      if log[0] > cut {
        assert Recent(log, cut)[1..] == Recent(log[1..], cut);
      }
    }
  }

  lemma {:induction false} PruneIsRecent(entries: seq<Entry>, cut: int)
    ensures Times(Prune(entries, cut)) == Recent(Times(entries), cut)
  {
    if entries != [] {
      PruneIsRecent(entries[1..], cut);
      assert Times(entries)[1..] == Times(entries[1..]);
      if entries[0].at > cut {
        assert Prune(entries, cut)[1..] == Prune(entries[1..], cut);
      }
    }
  }

  lemma {:induction false} RecentSnoc(log: seq<int>, t: int, cut: int)
    ensures Recent(log + [t], cut) == if t <= cut then Recent(log, cut) else Recent(log, cut) + [t]
  {
    if log != [] {
      assert (log + [t])[1..] == log[1..] + [t];
      RecentSnoc(log[1..], t, cut);
    }
  }

  lemma {:induction false} TimesSnoc(entries: seq<Entry>, e: Entry)
    ensures Times(entries + [e]) == Times(entries) + [e.at]
  {
    if entries != [] {
      assert (entries + [e])[1..] == entries[1..] + [e];
      TimesSnoc(entries[1..], e);
    }
  }

  lemma {:induction false} AllOld(log: seq<int>, cut: int)
    requires forall t | t in log :: t <= cut
    ensures Recent(log, cut) == []
  {
    if log != [] {
      assert log[0] in log && forall t | t in log[1..] :: t in log;
      AllOld(log[1..], cut);
    }
  }

  lemma {:induction false} PruneKeepsShape(entries: seq<Entry>, cut: int)
    requires Sorted(entries)
    ensures Sorted(Prune(entries, cut)) && |Prune(entries, cut)| <= |entries|
    ensures Prune(entries, cut) == entries[|entries| - |Prune(entries, cut)|..]
    ensures forall e | e in Prune(entries, cut) :: e in entries && e.at > cut
  {
    if entries != [] {
      if entries[0].at > cut {
        NothingToPrune(entries, cut);
      } else {
        assert Sorted(entries[1..]);
        PruneKeepsShape(entries[1..], cut);
      }
    }
  }

  /** Pruning, after whatever expired, leaves exactly the log restricted to the window. */
  lemma KeptIsRecent(r: Run, now: int)
    requires Inv(r) && r.now <= now
    ensures Times(Prune(Alive(r.l, now).entries, now - Window)) == Recent(r.log, now - Window)
  {
    if now - r.l.touched >= Ttl {
      AllOld(r.log, now - Window);
    } else {
      PruneIsRecent(r.l.entries, now - Window);
      RecentTwice(r.log, r.l.touched - Window, now - Window);
    }
  }

  /** A suffix of the set, touched later, is as good as the set. */
  lemma SuffixKeepsShape(r: Run, now: int)
    requires Inv(r) && r.now <= now
    ensures var kept := Prune(Alive(r.l, now).entries, now - Window);
            && Sorted(kept) && (forall i, j | 0 <= i < j < |kept| :: kept[i] != kept[j])
            && (forall e | e in kept :: e in r.l.entries && e.at > now - Window)
  {
    PruneKeepsShape(Alive(r.l, now).entries, now - Window);
  }

  lemma RejectKeepsInv(r: Run, now: int, limit: int)
    requires Inv(r) && r.now <= now && !Admits(r.l, now, limit)
    ensures Inv(Call(r, now, limit))
  {
    KeptIsRecent(r, now);
    SuffixKeepsShape(r, now);
  }

  lemma NonDecreasingSnoc(log: seq<int>, t: int)
    requires NonDecreasing(log) && forall x | x in log :: x <= t
    ensures NonDecreasing(log + [t])
  {
    assert forall i | 0 <= i < |log| :: log[i] in log;
  }

  lemma EntriesSnoc(entries: seq<Entry>, e: Entry)
    requires Sorted(entries) && forall i, j | 0 <= i < j < |entries| :: entries[i] != entries[j]
    requires forall x | x in entries :: x.at <= e.at && x != e
    ensures Sorted(entries + [e])
    ensures forall i, j | 0 <= i < j < |entries + [e]| :: (entries + [e])[i] != (entries + [e])[j]
  {
    assert forall i | 0 <= i < |entries| :: entries[i] in entries;
  }

  /** Adding the new member to a set that already matches its window. */
  lemma ExtendKeepsInv(kept: seq<Entry>, number: nat, log: seq<int>, now: int)
    requires Sorted(kept) && forall i, j | 0 <= i < j < |kept| :: kept[i] != kept[j]
    requires forall x | x in kept :: x.at <= now && (x.at == now ==> x.number < number)
    requires NonDecreasing(log) && forall t | t in log :: t <= now
    requires Times(kept) == Recent(log, now - Window)
    ensures Inv(Run(Limiter(kept + [Entry(now, number)], number, now, now), log + [now], now))
  {
    TimesSnoc(kept, Entry(now, number));
    RecentSnoc(log, now, now - Window);
    NonDecreasingSnoc(log, now);
    EntriesSnoc(kept, Entry(now, number));
  }

  lemma AdmitKeepsInv(r: Run, now: int, limit: int)
    requires Inv(r) && r.now <= now && Admits(r.l, now, limit)
    ensures Inv(Call(r, now, limit))
  {
    KeptIsRecent(r, now);
    SuffixKeepsShape(r, now);
    var a := Alive(r.l, now);
    ExtendKeepsInv(Prune(a.entries, now - Window), a.sequence + 1, r.log, now);
  }

  lemma CallKeepsInv(r: Run, now: int, limit: int)
    requires Inv(r) && r.now <= now
    ensures Inv(Call(r, now, limit))
  {
    if Admits(r.l, now, limit) {
      AdmitKeepsInv(r, now, limit);
    } else {
      RejectKeepsInv(r, now, limit);
    }
  }

  lemma {:induction false} InvHolds(start: int, times: seq<int>, limit: int)
    requires NonDecreasing(times) && forall t | t in times :: start <= t
    ensures var r := Calls(Start(start), times, limit);
            Inv(r) && r.now == if times == [] then start else times[|times| - 1]
    decreases |times|
  {
    if times != [] {
      var rest := times[..|times| - 1];
      assert forall t | t in rest :: t in times;
      InvHolds(start, rest, limit);
      assert times[|times| - 1] in times;
      CallKeepsInv(Calls(Start(start), rest, limit), times[|times| - 1], limit);
    }
  }

  /** The sorted set is the admission log restricted to the window, for every call sequence. */
  lemma SetIsTheWindowOfTheLog(start: int, times: seq<int>, limit: int, now: int)
    requires NonDecreasing(times) && forall t | t in times :: start <= t <= now
    requires start <= now
    ensures var r := Calls(Start(start), times, limit);
            Times(Prune(Alive(r.l, now).entries, now - Window)) == Recent(r.log, now - Window)
  {
    InvHolds(start, times, limit);
    if times != [] { assert times[|times| - 1] in times; }
    KeptIsRecent(Calls(Start(start), times, limit), now);
  }

  /** How many admissions fall in the window that ends with `end`. */
  function InWindow(log: seq<int>, end: int): nat {
    if log == [] then 0 else (if end - Window < log[0] <= end then 1 else 0) + InWindow(log[1..], end)
  }

  lemma {:induction false} InWindowSnoc(log: seq<int>, t: int, end: int)
    ensures InWindow(log + [t], end) == InWindow(log, end) + if end - Window < t <= end then 1 else 0
  {
    if log != [] {
      assert (log + [t])[1..] == log[1..] + [t];
      InWindowSnoc(log[1..], t, end);
    }
  }

  lemma {:induction false} InWindowAtMostRecent(log: seq<int>, end: int, now: int)
    requires now - Window <= end - Window
    ensures InWindow(log, end) <= |Recent(log, now - Window)|
  {
    if log != [] {
      InWindowAtMostRecent(log[1..], end, now);
    }
  }

  lemma {:induction false} TimesLength(entries: seq<Entry>)
    ensures |Times(entries)| == |entries|
  {
    if entries != [] {
      TimesLength(entries[1..]);
    }
  }

  /** No window of 1000 ms, wherever it ends, ever contains more admissions than the limit. */
  lemma {:induction false} NeverMoreThanTheLimit(start: int, times: seq<int>, limit: nat, end: int)
    requires NonDecreasing(times) && forall t | t in times :: start <= t
    ensures InWindow(Calls(Start(start), times, limit).log, end) <= limit
    decreases |times|
  {
    if times != [] {
      var rest, now := times[..|times| - 1], times[|times| - 1];
      assert forall t | t in rest :: t in times;
      NeverMoreThanTheLimit(start, rest, limit, end);
      var r := Calls(Start(start), rest, limit);
      InvHolds(start, rest, limit);
      assert now in times && r.now <= now;
      if Admits(r.l, now, limit) {
        InWindowSnoc(r.log, now, end);
        if end - Window < now <= end {
          KeptIsRecent(r, now);
          TimesLength(Prune(Alive(r.l, now).entries, now - Window));
          InWindowAtMostRecent(r.log, end, now);
        }
      }
    }
  }

  /** The retry hint is exact: if nobody else calls, a rejected caller is still rejected at
      every moment before `RetryMs` has passed, and admitted from then on; the seconds it is
      told cover that time. */
  lemma RetryHintIsExact(start: int, times: seq<int>, limit: nat, now: int, later: int)
    requires limit > 0 && NonDecreasing(times) && forall t | t in times :: start <= t <= now
    requires start <= now <= later
    requires !Admits(Calls(Start(start), times, limit).l, now, limit)
    ensures var r := Calls(Start(start), times, limit);
            var r' := Call(r, now, limit);
            && (Admits(r'.l, later, limit) <==> later >= now + RetryMs(r.l, now))
            && 1000 * Step(r.l, now, limit).1.retrySeconds >= RetryMs(r.l, now)
  {
    var r := Calls(Start(start), times, limit);
    InvHolds(start, times, limit);
    if times != [] { assert times[|times| - 1] in times; }
    KeptAtMostLimit(start, times, limit, now);
    SuffixKeepsShape(r, now);
    var kept := Prune(Alive(r.l, now).entries, now - Window);
    WaitingFreesASlot(kept, r.l.sequence, now, r.l.counted, limit, later);
    WaitingFreesASlot(kept, Alive(r.l, now).sequence, now, r.l.counted, limit, later);
  }

  lemma WaitingFreesASlot(kept: seq<Entry>, sequence: nat, now: int, counted: int, limit: nat, later: int)
    requires Sorted(kept) && |kept| == limit > 0 && now <= later
    requires forall e | e in kept :: now - Window < e.at <= now
    ensures Admits(Limiter(kept, sequence, now, counted), later, limit) <==> later >= kept[0].at + Window
  {
    PruneKeepsShape(kept, later - Window);
    if kept[0].at > later - Window {
      NothingToPrune(kept, later - Window);
    } else if later - now < Ttl {
      PruneLosesTheHead(kept, later - Window);
    }
  }

  lemma PruneLosesTheHead(entries: seq<Entry>, cut: int)
    requires Sorted(entries) && entries != [] && entries[0].at <= cut
    ensures |Prune(entries, cut)| < |entries|
  {
    assert Sorted(entries[1..]);
    PruneKeepsShape(entries[1..], cut);
  }

  lemma KeptAtMostLimit(start: int, times: seq<int>, limit: nat, now: int)
    requires NonDecreasing(times) && forall t | t in times :: start <= t <= now
    requires start <= now
    ensures var r := Calls(Start(start), times, limit);
            |Prune(Alive(r.l, now).entries, now - Window)| <= limit
  {
    var r := Calls(Start(start), times, limit);
    SetIsTheWindowOfTheLog(start, times, limit, now);
    TimesLength(Prune(Alive(r.l, now).entries, now - Window));
    NeverMoreThanTheLimit(start, times, limit, now);
    InvHolds(start, times, limit);
    if times != [] { assert times[|times| - 1] in times; }
    RecentIsInWindow(r.log, now);
  }

  lemma {:induction false} RecentIsInWindow(log: seq<int>, now: int)
    requires forall t | t in log :: t <= now
    ensures |Recent(log, now - Window)| == InWindow(log, now)
  {
    if log != [] {
      assert log[0] in log && forall t | t in log[1..] :: t in log;
      RecentIsInWindow(log[1..], now);
    }
  }

  /** The admissions of the last 1000 milliseconds. */
  function LastSecond(log: seq<int>, now: int): nat {
    if log == [] then 0 else (if now - 1000 < log[0] <= now then 1 else 0) + LastSecond(log[1..], now)
  }

  lemma {:induction false} LastSecondIsInWindow(log: seq<int>, now: int)
    ensures LastSecond(log, now) == InWindow(log, now)
  {
    if log != [] {
      LastSecondIsInWindow(log[1..], now);
    }
  }

  /** Whatever came before, a call is admitted if and only if the second before it saw fewer
      admissions than the limit; it is told how many there are with it, and how long to wait. */
  lemma AdmittedIffBelowTheLimit(start: int, times: seq<int>, limit: nat, now: int)
    requires NonDecreasing(times) && (forall t | t in times :: start <= t <= now) && start <= now
    ensures var r := Calls(Start(start), times, limit);
            var n, answer := LastSecond(r.log, now), Step(r.l, now, limit).1;
            && answer.count == n + 1
            && answer.retrySeconds == (if n < limit then 0 else 1)
            && Call(r, now, limit).log == if n < limit then r.log + [now] else r.log
  {
    var r := Calls(Start(start), times, limit);
    SetIsTheWindowOfTheLog(start, times, limit, now);
    TimesLength(Prune(Alive(r.l, now).entries, now - Window));
    InvHolds(start, times, limit);
    if times != [] { assert times[|times| - 1] in times; }
    RecentIsInWindow(r.log, now);
    LastSecondIsInWindow(r.log, now);
    SuffixKeepsShape(r, now);
  }
}
