/** The bounded sample queue between rollout and trainer, with its staleness limit. */
module MessageQueue {
  import opened Arith
  import opened StateMachine
  import opened Wrappers

  /** One rollout sample and the parameter version it was generated with. */
  datatype Item = Item(data: nat, version: int)

  /** A dequeued item, the version current when it was looked at, and what became of it. */
  datatype Judged = Judged(item: Item, version: int, kept: bool)

  predicate Stale(j: Judged) {
    j.item.version < j.version
  }

  /** One call for a batch: what it asked for, and what it dequeued so far. */
  datatype Call = Call(size: nat, maxStale: int, log: seq<Judged>)

  function Items(log: seq<Judged>): seq<Item> {
    if |log| == 0 then [] else Items(log[..|log| - 1]) + [log[|log| - 1].item]
  }

  /** The batch: the items kept, in the order they were dequeued. */
  function Batch(log: seq<Judged>): seq<Item> {
    if |log| == 0 then []
    else
      var j := log[|log| - 1];
      Batch(log[..|log| - 1]) + if j.kept then [j.item] else []
  }

  function StaleKept(log: seq<Judged>): nat {
    if |log| == 0 then 0
    else
      var j := log[|log| - 1];
      StaleKept(log[..|log| - 1]) + if j.kept && Stale(j) then 1 else 0
  }

  /** The number of stale samples a batch may hold: the product, cut toward zero. */
  function MaxStale(size: nat, threshold: real): int {
    var x := Times(size, threshold);
    if x >= 0.0 then x.Floor else -((-x).Floor)
  }

  /** What becomes of an item looked at under the given version. */
  function Judge(c: Call, item: Item, version: int): Judged {
    Judged(item, version, !(item.version < version && StaleKept(c.log) >= c.maxStale))
  }

  /** The share is the product of size and threshold, cut toward zero. */
  lemma ShareIsFloor(size: nat, threshold: real)
    ensures var share, exact := MaxStale(size, threshold) as real, Product(size as real, threshold);
            if exact >= 0.0 then share <= exact < share + 1.0 else share - 1.0 < exact <= share
  {
    TimesIsProduct(size, threshold);
  }

  /** An item is dropped exactly when it is stale and the batch already holds its share. */
  ghost predicate WellJudged(c: Call) {
    forall i :: 0 <= i < |c.log| ==>
                  (c.log[i].kept <==> !(Stale(c.log[i]) && StaleKept(c.log[..i]) >= c.maxStale))
  }

  lemma Snoc(log: seq<Judged>, j: Judged)
    ensures Items(log + [j]) == Items(log) + [j.item]
    ensures Batch(log + [j]) == Batch(log) + if j.kept then [j.item] else []
    ensures StaleKept(log + [j]) == StaleKept(log) + if j.kept && Stale(j) then 1 else 0
  {
    assert (log + [j])[..|log|] == log;
  }

  lemma WellJudgedSnoc(c: Call, j: Judged)
    requires WellJudged(c)
    requires j.kept <==> !(Stale(j) && StaleKept(c.log) >= c.maxStale)
    ensures WellJudged(c.(log := c.log + [j]))
  {
    var log := c.log + [j];
    forall i | 0 <= i < |log| ensures log[i].kept <==> !(Stale(log[i]) && StaleKept(log[..i]) >= c.maxStale) {
      assert log[..i] == c.log[..i];
      assert c.log[..|c.log|] == c.log;
    }
  }

  lemma LogNext(c: Call, j: Judged)
    requires WellJudged(c)
    requires j.kept <==> !(Stale(j) && StaleKept(c.log) >= c.maxStale)
    ensures var c' := c.(log := c.log + [j]);
            && WellJudged(c') && Items(c'.log) == Items(c.log) + [j.item]
            && Batch(c'.log) == Batch(c.log) + (if j.kept then [j.item] else [])
            && StaleKept(c'.log) == StaleKept(c.log) + if j.kept && Stale(j) then 1 else 0
  {
    Snoc(c.log, j);
    WellJudgedSnoc(c, j);
  }

  /** A batch never holds more stale items than its share. */
  lemma {:induction false} StaleWithin(c: Call)
    requires WellJudged(c)
    ensures StaleKept(c.log) <= if c.maxStale > 0 then c.maxStale else 0
    decreases |c.log|
  {
    if |c.log| > 0 {
      var n := |c.log| - 1;
      var before := c.(log := c.log[..n]);
      forall i | 0 <= i < n
        ensures before.log[i].kept <==> !(Stale(before.log[i]) && StaleKept(before.log[..i]) >= c.maxStale)
      {
        assert before.log[..i] == c.log[..i];
      }
      StaleWithin(before);
      assert c.log[n].kept <==> !(Stale(c.log[n]) && StaleKept(c.log[..n]) >= c.maxStale);
    }
  }

  lemma Arrivals<T>(a: seq<T>, b: seq<T>, c: seq<T>, d: seq<T>, more: seq<T>)
    requires a + b == c + d
    ensures a + (b + more) == c + (d + more)
  {
    assert a + (b + more) == a + b + more;
    assert c + (d + more) == c + d + more;
  }

  lemma TakeFirst<T>(c: seq<T>, d: seq<T>)
    requires |d| > 0
    ensures c + d == c + [d[0]] + d[1..]
  {
  }

  // ---------------------------------------------------------------------
  // The queue object
  // ---------------------------------------------------------------------

  /** What other threads do between two polls of the consumer. */
  datatype Event = Arrive(item: Item) | NewVersion(version: int)

  /** The queue, the version and the number of items produced. */
  datatype View = View(queue: seq<Item>, version: int, produced: nat)

  function Happens(v: View, maxsize: int, e: Event): View {
    match e
    case Arrive(item) =>
      if 0 < maxsize <= |v.queue| then v else v.(queue := v.queue + [item], produced := v.produced + 1)
    case NewVersion(version) => v.(version := version)
  }

  function AllHappen(v: View, maxsize: int, events: seq<Event>): View {
    if |events| == 0 then v
    else Happens(AllHappen(v, maxsize, events[..|events| - 1]), maxsize, events[|events| - 1])
  }

  /** One poll of a call that is not complete: others have their turn, then one item is dequeued
      and judged if there is one. */
  function PollOnce(v: View, maxsize: int, c: Call, events: seq<Event>): (View, Call) {
    var u := AllHappen(v, maxsize, events);
    if u.queue == [] then (u, c)
    else (u.(queue := u.queue[1..]), c.(log := c.log + [Judge(c, u.queue[0], u.version)]))
  }

  /** A call after these polls; once the batch is complete it polls no more. */
  function Polled(v: View, maxsize: int, c: Call, polls: seq<seq<Event>>): (View, Call) {
    if |polls| == 0 then (v, c)
    else
      var (w, d) := Polled(v, maxsize, c, polls[..|polls| - 1]);
      if |Batch(d.log)| >= d.size then (w, d) else PollOnce(w, maxsize, d, polls[|polls| - 1])
  }

  lemma PolledNext(v: View, maxsize: int, c: Call, polls: seq<seq<Event>>, k: nat, w: View, d: Call)
    requires k < |polls| && (w, d) == Polled(v, maxsize, c, polls[..k]) && |Batch(d.log)| < d.size
    ensures Polled(v, maxsize, c, polls[..k + 1]) == PollOnce(w, maxsize, d, polls[k])
  {
    assert polls[..k + 1][..k] == polls[..k];
  }

  lemma {:induction false} PolledEnough(v: View, maxsize: int, c: Call, polls: seq<seq<Event>>, k: nat)
    requires k <= |polls| && |Batch(Polled(v, maxsize, c, polls[..k]).1.log)| >= c.size
    ensures Polled(v, maxsize, c, polls[..k]).1.size == c.size
    ensures Polled(v, maxsize, c, polls) == Polled(v, maxsize, c, polls[..k])
    decreases |polls|
  {
    PolledSize(v, maxsize, c, polls[..k]);
    if k == |polls| {
      assert polls[..k] == polls;
    } else {
      var before := polls[..|polls| - 1];
      assert before[..k] == polls[..k];
      PolledEnough(v, maxsize, c, before, k);
    }
  }

  lemma {:induction false} PolledSize(v: View, maxsize: int, c: Call, polls: seq<seq<Event>>)
    ensures Polled(v, maxsize, c, polls).1.size == c.size && Polled(v, maxsize, c, polls).1.maxStale == c.maxStale
  {
    if |polls| > 0 {
      PolledSize(v, maxsize, c, polls[..|polls| - 1]);
    }
  }

  lemma {:induction false} Arrived(v: View, maxsize: int, events: seq<Event>) returns (more: seq<Item>)
    ensures AllHappen(v, maxsize, events).queue == v.queue + more
    ensures AllHappen(v, maxsize, events).produced == v.produced + |more|
  {
    if |events| == 0 {
      more := [];
    } else {
      var n := |events| - 1;
      more := Arrived(v, maxsize, events[..n]);
      if events[n].Arrive? && !(0 < maxsize <= |AllHappen(v, maxsize, events[..n]).queue|) {
        more := more + [events[n].item];
      }
    }
  }

  /** What polling keeps: the log is well judged, and what was queued before and what arrived is, in
      order, what was dequeued and what is still queued. */
  lemma {:induction false} PolledAccounts(v: View, maxsize: int, c: Call, polls: seq<seq<Event>>)
      returns (arrived: seq<Item>)
    requires c.log == []
    ensures var (w, d) := Polled(v, maxsize, c, polls);
            && WellJudged(d) && d.size == c.size && d.maxStale == c.maxStale && |Batch(d.log)| <= d.size
            && v.queue + arrived == Items(d.log) + w.queue && w.produced == v.produced + |arrived|
  {
    if |polls| == 0 {
      arrived := [];
      assert Items([]) == [] && Batch([]) == [];
    } else {
      var n := |polls| - 1;
      arrived := PolledAccounts(v, maxsize, c, polls[..n]);
      var (w, d) := Polled(v, maxsize, c, polls[..n]);
      if |Batch(d.log)| < d.size {
        var more := PollAccounts(w, maxsize, d, polls[n]);
        Arrivals(v.queue, arrived, Items(d.log), w.queue, more);
        arrived := arrived + more;
      }
    }
  }

  lemma PollAccounts(w: View, maxsize: int, d: Call, events: seq<Event>) returns (more: seq<Item>)
    requires WellJudged(d) && |Batch(d.log)| < d.size
    ensures var (w', d') := PollOnce(w, maxsize, d, events);
            && WellJudged(d') && d'.size == d.size && d'.maxStale == d.maxStale && |Batch(d'.log)| <= d'.size
            && Items(d.log) + (w.queue + more) == Items(d'.log) + w'.queue && w'.produced == w.produced + |more|
  {
    more := Arrived(w, maxsize, events);
    var u := AllHappen(w, maxsize, events);
    if u.queue != [] {
      LogNext(d, Judge(d, u.queue[0], u.version));
      TakeFirst(Items(d.log), u.queue);
    }
  }

  class AsyncMessageQueue {
    var queue: seq<Item>
    var currentVersion: int
    var totalProduced: nat
    var totalConsumed: nat
    var staleConsumed: nat
    const maxsize: int
    const threshold: real

    constructor (maxsize: int, threshold: real)
      ensures this.maxsize == maxsize && this.threshold == threshold
      ensures queue == [] && currentVersion == 0
      ensures totalProduced == 0 && totalConsumed == 0 && staleConsumed == 0
    {
      this.maxsize, this.threshold := maxsize, threshold;
      queue, currentVersion := [], 0;
      totalProduced, totalConsumed, staleConsumed := 0, 0, 0;
    }

    function Now(): View
      reads this
    {
      View(queue, currentVersion, totalProduced)
    }

    predicate Full()
      reads this
    {
      0 < maxsize <= |queue|
    }

    method SetVersion(v: int)
      modifies this`currentVersion
      ensures currentVersion == v
    {
      currentVersion := v;
    }

    /** Adds an item at the end; a full queue makes the producer wait. */
    method Put(item: Item) returns (stored: bool)
      modifies this`queue, this`totalProduced
      ensures stored == !old(Full())
      ensures queue == if stored then old(queue) + [item] else old(queue)
      ensures totalProduced == old(totalProduced) + if stored then 1 else 0
      ensures maxsize > 0 && |old(queue)| <= maxsize ==> |queue| <= maxsize
    {
      stored := !Full();
      if stored {
        queue := queue + [item];
        totalProduced := totalProduced + 1;
      }
    }

    method Interfere(events: seq<Event>)
      modifies this`queue, this`totalProduced, this`currentVersion
      ensures Now() == AllHappen(old(Now()), maxsize, events)
    {
      for i := 0 to |events|
        invariant Now() == AllHappen(old(Now()), maxsize, events[..i])
      {
        assert events[..i + 1][..i] == events[..i];
        match events[i]
        case Arrive(item) => var stored := Put(item);
        case NewVersion(v) => SetVersion(v);
      }
      assert events[..|events|] == events;
    }

    /** Collects a batch. `polls` is what other threads do before each poll; when it is used
        up the deadline has passed. `call` records what was dequeued and decided. */
    method GetBatch(batchSize: nat, polls: seq<seq<Event>>)
      returns (r: Result<seq<Item>>, ghost call: Call, ghost arrived: seq<Item>)
      modifies this
      ensures (Now(), call)
           == Polled(old(Now()), maxsize, Call(batchSize, MaxStale(batchSize, threshold), []), polls)
      ensures call.size == batchSize && call.maxStale == MaxStale(batchSize, threshold) && WellJudged(call)
      ensures old(queue) + arrived == Items(call.log) + queue
      ensures totalProduced == old(totalProduced) + |arrived|
      ensures totalConsumed == old(totalConsumed) + |Batch(call.log)|
      ensures staleConsumed == old(staleConsumed) + StaleKept(call.log)
      ensures |Batch(call.log)| <= batchSize
      ensures r == if |Batch(call.log)| == batchSize then Ok(Batch(call.log)) else Err(TimeoutError)
    {
      var collected: seq<Item>, staleCount := [], 0;
      var maxStale := MaxStale(batchSize, threshold);
      ghost var v, start := Now(), Call(batchSize, maxStale, []);
      call := start;
      arrived := PolledAccounts(v, maxsize, start, polls);
      var poll := 0;
      while |collected| < batchSize
        invariant 0 <= poll <= |polls|
        invariant (Now(), call) == Polled(v, maxsize, start, polls[..poll])
        invariant call.size == batchSize && call.maxStale == maxStale
        invariant collected == Batch(call.log) && staleCount == StaleKept(call.log)
        invariant totalConsumed == old(totalConsumed) + |collected|
        invariant staleConsumed == old(staleConsumed) + staleCount
        decreases |polls| - poll
      {
        if poll == |polls| {
          assert polls[..poll] == polls;
          return Err(TimeoutError), call, arrived;
        }
        PolledNext(v, maxsize, start, polls, poll, Now(), call);
        Interfere(polls[poll]);
        poll := poll + 1;
        if queue == [] {
          continue;
        }
        var item := queue[0];
        queue := queue[1..];
        var isStale := item.version < currentVersion;
        var drop := isStale && staleCount >= maxStale;
        ghost var j := Judged(item, currentVersion, !drop);
        Snoc(call.log, j);
        call := call.(log := call.log + [j]);
        if drop {
          continue;
        }
        collected := collected + [item];
        if isStale {
          staleCount := staleCount + 1;
        }
        totalConsumed := totalConsumed + 1;
        if isStale {
          staleConsumed := staleConsumed + 1;
        }
      }
      PolledEnough(v, maxsize, start, polls, poll);
      r := Ok(collected);
    }
  }

  // ---------------------------------------------------------------------
  // The version an item is judged under
  // ---------------------------------------------------------------------

  /** The last version set among the events, `version` if there is none. */
  function LastVersion(events: seq<Event>, version: int): int {
    if |events| == 0 then version
    else if events[|events| - 1].NewVersion? then events[|events| - 1].version
    else LastVersion(events[..|events| - 1], version)
  }

  lemma {:induction false} LastVersionConcat(a: seq<Event>, b: seq<Event>, version: int)
    ensures LastVersion(a + b, version) == LastVersion(b, LastVersion(a, version))
  {
    if |b| == 0 {
      assert a + b == a;
    } else {
      assert (a + b)[..|a + b| - 1] == a + b[..|b| - 1];
      LastVersionConcat(a, b[..|b| - 1], version);
    }
  }

  lemma {:induction false} VersionLeft(v: View, maxsize: int, events: seq<Event>)
    ensures AllHappen(v, maxsize, events).version == LastVersion(events, v.version)
  {
    if |events| > 0 {
      VersionLeft(v, maxsize, events[..|events| - 1]);
    }
  }

  /** The events of the first `k` polls, in order. */
  function EventsOf(polls: seq<seq<Event>>, k: nat): seq<Event>
    requires k <= |polls|
  {
    if k == 0 then [] else EventsOf(polls, k - 1) + polls[k - 1]
  }

  lemma {:induction false} EventsOfPrefix(polls: seq<seq<Event>>, n: nat, k: nat)
    requires k <= n <= |polls|
    ensures EventsOf(polls[..n], k) == EventsOf(polls, k)
  {
    if k > 0 {
      EventsOfPrefix(polls, n, k - 1);
    }
  }

  /** The version current at poll `n`. */
  function VersionAt(polls: seq<seq<Event>>, n: nat, version: int): int
    requires n < |polls|
  {
    LastVersion(EventsOf(polls, n + 1), version)
  }

  /** Entry `i` of the log was judged at poll `at[i]`, under the version current then. */
  ghost predicate JudgedAt(log: seq<Judged>, at: seq<nat>, polls: seq<seq<Event>>, version: int) {
    && |at| == |log|
    && (forall i, j :: 0 <= i < j < |at| ==> at[i] < at[j])
    && forall i :: 0 <= i < |at| ==> at[i] < |polls| && log[i].version == VersionAt(polls, at[i], version)
  }

  lemma LaterPolls(log: seq<Judged>, at: seq<nat>, polls: seq<seq<Event>>, version: int)
    requires |polls| > 0 && JudgedAt(log, at, polls[..|polls| - 1], version)
    ensures JudgedAt(log, at, polls, version)
  {
    forall i | 0 <= i < |at| ensures log[i].version == VersionAt(polls, at[i], version) {
      EventsOfPrefix(polls, |polls| - 1, at[i] + 1);
    }
  }

  lemma JudgedNext(log: seq<Judged>, at: seq<nat>, polls: seq<seq<Event>>, version: int, j: Judged, n: nat)
    requires JudgedAt(log, at, polls, version) && n < |polls| && j.version == VersionAt(polls, n, version)
    requires forall i :: 0 <= i < |at| ==> at[i] < n
    ensures JudgedAt(log + [j], at + [n], polls, version)
  {
  }

  /** Main result on versions: every item is judged under the version that is current at its poll,
      the last one set by then, and at most one item is judged a poll. While the batch is not
      complete the version left behind is the last one set in all polls. */
  lemma {:induction false} JudgedUnderCurrent(v: View, maxsize: int, c: Call, polls: seq<seq<Event>>)
      returns (at: seq<nat>)
    requires c.log == []
    ensures var (w, d) := Polled(v, maxsize, c, polls);
            && JudgedAt(d.log, at, polls, v.version)
            && (|Batch(d.log)| < d.size ==> w.version == LastVersion(EventsOf(polls, |polls|), v.version))
  {
    if |polls| == 0 {
      at := [];
    } else {
      var n := |polls| - 1;
      at := JudgedUnderCurrent(v, maxsize, c, polls[..n]);
      var (w, d) := Polled(v, maxsize, c, polls[..n]);
      LaterPolls(d.log, at, polls, v.version);
      if |Batch(d.log)| < d.size {
        EventsOfPrefix(polls, n, n);
        at := JudgedOnce(w, maxsize, d, polls, at, v.version);
      }
    }
  }

  lemma VersionNow(w: View, maxsize: int, polls: seq<seq<Event>>, n: nat, version: int)
    requires n < |polls| && w.version == LastVersion(EventsOf(polls, n), version)
    ensures AllHappen(w, maxsize, polls[n]).version == VersionAt(polls, n, version)
  {
    LastVersionConcat(EventsOf(polls, n), polls[n], version);
    VersionLeft(w, maxsize, polls[n]);
  }

  lemma JudgedOnce(w: View, maxsize: int, d: Call, polls: seq<seq<Event>>, at: seq<nat>, version: int)
      returns (at': seq<nat>)
    requires |polls| > 0 && JudgedAt(d.log, at, polls, version)
    requires forall i :: 0 <= i < |at| ==> at[i] < |polls| - 1
    requires w.version == LastVersion(EventsOf(polls, |polls| - 1), version)
    ensures var (w', d') := PollOnce(w, maxsize, d, polls[|polls| - 1]);
            && JudgedAt(d'.log, at', polls, version)
            && w'.version == VersionAt(polls, |polls| - 1, version)
  {
    var n := |polls| - 1;
    var u := AllHappen(w, maxsize, polls[n]);
    VersionNow(w, maxsize, polls, n, version);
    at' := at;
    if u.queue != [] {
      JudgedNext(d.log, at, polls, version, Judge(d, u.queue[0], u.version), n);
      at' := at + [n];
    }
  }

  /** The items that events offer, in order. */
  function Offered(events: seq<Event>): seq<Item> {
    if |events| == 0 then []
    else
      Offered(events[..|events| - 1])
      + if events[|events| - 1].Arrive? then [events[|events| - 1].item] else []
  }

  /** Into a queue without a limit everything offered goes, at the end and in order. */
  lemma {:induction false} UnlimitedTakesAll(v: View, maxsize: int, events: seq<Event>)
    requires maxsize <= 0
    ensures AllHappen(v, maxsize, events).queue == v.queue + Offered(events)
  {
    if |events| > 0 {
      UnlimitedTakesAll(v, maxsize, events[..|events| - 1]);
    }
  }

  lemma {:induction false} BatchMembers(log: seq<Judged>, item: Item)
    ensures item in Batch(log) <==> exists i :: 0 <= i < |log| && log[i].kept && log[i].item == item
  {
    if |log| > 0 {
      BatchMembers(log[..|log| - 1], item);
    }
  }

  lemma {:induction false} NoNewVersion(events: seq<Event>, version: int)
    requires forall i :: 0 <= i < |events| ==> events[i].Arrive?
    ensures LastVersion(events, version) == version
  {
    if |events| > 0 {
      NoNewVersion(events[..|events| - 1], version);
    }
  }

  lemma {:induction false} NoNewVersions(polls: seq<seq<Event>>, k: nat)
    requires k <= |polls| && forall n, i :: 0 <= n < |polls| && 0 <= i < |polls[n]| ==> polls[n][i].Arrive?
    ensures forall i :: 0 <= i < |EventsOf(polls, k)| ==> EventsOf(polls, k)[i].Arrive?
  {
    if k > 0 {
      NoNewVersions(polls, k - 1);
    }
  }

  /** While the version stays, a batch that may hold no stale item holds none older than it. */
  lemma FreshBatch(v: View, maxsize: int, c: Call, polls: seq<seq<Event>>, item: Item)
    requires c.log == [] && c.maxStale <= 0 && WellJudged(Polled(v, maxsize, c, polls).1)
    requires forall n, i :: 0 <= n < |polls| && 0 <= i < |polls[n]| ==> polls[n][i].Arrive?
    requires item in Batch(Polled(v, maxsize, c, polls).1.log)
    ensures item.version >= v.version
  {
    var at := JudgedUnderCurrent(v, maxsize, c, polls);
    PolledSize(v, maxsize, c, polls);
    FreshLog(Polled(v, maxsize, c, polls).1, at, polls, v.version, item);
  }

  lemma FreshLog(d: Call, at: seq<nat>, polls: seq<seq<Event>>, version: int, item: Item)
    requires WellJudged(d) && d.maxStale <= 0 && JudgedAt(d.log, at, polls, version) && item in Batch(d.log)
    requires forall n, i :: 0 <= n < |polls| && 0 <= i < |polls[n]| ==> polls[n][i].Arrive?
    ensures item.version >= version
  {
    BatchMembers(d.log, item);
    var i :| 0 <= i < |d.log| && d.log[i].kept && d.log[i].item == item;
    SameVersionAt(polls, at[i], version);
  }

  lemma SameVersionAt(polls: seq<seq<Event>>, n: nat, version: int)
    requires n < |polls| && forall n, i :: 0 <= n < |polls| && 0 <= i < |polls[n]| ==> polls[n][i].Arrive?
    ensures VersionAt(polls, n, version) == version
  {
    NoNewVersions(polls, n + 1);
    NoNewVersion(EventsOf(polls, n + 1), version);
  }

  // ---------------------------------------------------------------------
  // All interleavings
  // ---------------------------------------------------------------------

  datatype Consumer =
    | Idle
    | Polling(call: Call)
    | Holding(call: Call, item: Item)  // dequeued, not looked at yet
    | Counting(call: Call)             // kept, not counted yet

  /** `enqueued`, `returned` and `timedOut` record the past. */
  datatype State = State(
    queue: seq<Item>, version: int, uncounted: nat, produced: nat, consumed: nat, staleConsumed: nat,
    consumer: Consumer, enqueued: seq<Item>, finished: seq<Finished>)

  datatype Finished = Returned(call: Call) | TimedOut(call: Call)

  datatype Limits = Limits(maxsize: int, threshold: real)

  ghost predicate Init(s: State) {
    s == State([], 0, 0, 0, 0, 0, Idle, [], [])
  }

  ghost predicate EnqueueStep(l: Limits, s: State, s': State) {
    && (l.maxsize <= 0 || |s.queue| < l.maxsize)
    && exists item :: s' == s.(queue := s.queue + [item], uncounted := s.uncounted + 1, enqueued := s.enqueued + [item])
  }

  ghost predicate CountPutStep(s: State, s': State) {
    s.uncounted > 0 && s' == s.(uncounted := s.uncounted - 1, produced := s.produced + 1)
  }

  ghost predicate VersionStep(s: State, s': State) {
    s' == s.(version := s'.version)
  }

  ghost predicate BeginStep(l: Limits, s: State, s': State) {
    && s.consumer.Idle?
    && exists size: nat :: s' == s.(consumer := Polling(Call(size, MaxStale(size, l.threshold), [])))
  }

  ghost predicate TakeStep(s: State, s': State) {
    && s.consumer.Polling? && |Batch(s.consumer.call.log)| < s.consumer.call.size
    && |s.queue| > 0
    && s' == s.(queue := s.queue[1..], consumer := Holding(s.consumer.call, s.queue[0]))
  }

  ghost predicate JudgeStep(s: State, s': State) {
    && s.consumer.Holding?
    && var j := Judge(s.consumer.call, s.consumer.item, s.version);
       var c := s.consumer.call.(log := s.consumer.call.log + [j]);
       s' == s.(consumer := if j.kept then Counting(c) else Polling(c))
  }

  ghost predicate CountStep(s: State, s': State) {
    && s.consumer.Counting? && |s.consumer.call.log| > 0
    && var j := s.consumer.call.log[|s.consumer.call.log| - 1];
       s' == s.(consumed := s.consumed + 1,
                staleConsumed := s.staleConsumed + (if Stale(j) then 1 else 0),
                consumer := Polling(s.consumer.call))
  }

  ghost predicate FinishStep(s: State, s': State) {
    && s.consumer.Polling?
    && var c := s.consumer.call;
       s' == s.(consumer := Idle,
                finished := s.finished + [if |Batch(c.log)| >= c.size then Returned(c) else TimedOut(c)])
  }

  ghost predicate Next(l: Limits, s: State, s': State) {
    || EnqueueStep(l, s, s') || CountPutStep(s, s') || VersionStep(s, s')
    || BeginStep(l, s, s') || TakeStep(s, s') || JudgeStep(s, s') || CountStep(s, s') || FinishStep(s, s')
  }

  // ---------------------------------------------------------------------
  // What every interleaving keeps
  // ---------------------------------------------------------------------

  /** Every item dequeued by finished calls, in order. */
  function DequeuedBy(fs: seq<Finished>): seq<Item> {
    if |fs| == 0 then [] else DequeuedBy(fs[..|fs| - 1]) + Items(fs[|fs| - 1].call.log)
  }

  function KeptBy(fs: seq<Finished>): nat {
    if |fs| == 0 then 0 else KeptBy(fs[..|fs| - 1]) + |Batch(fs[|fs| - 1].call.log)|
  }

  function StaleKeptBy(fs: seq<Finished>): nat {
    if |fs| == 0 then 0 else StaleKeptBy(fs[..|fs| - 1]) + StaleKept(fs[|fs| - 1].call.log)
  }

  function Requested(fs: seq<Finished>): nat {
    if |fs| == 0 then 0 else Requested(fs[..|fs| - 1]) + fs[|fs| - 1].call.size
  }

  /** The log of the call in progress. */
  function Log(c: Consumer): seq<Judged> {
    if c.Idle? then [] else c.call.log
  }

  function InHand(c: Consumer): seq<Item> {
    if c.Holding? then [c.item] else []
  }

  ghost predicate GoodCall(l: Limits, c: Call) {
    WellJudged(c) && c.maxStale == MaxStale(c.size, l.threshold) && |Batch(c.log)| <= c.size
  }

  ghost predicate Accounted(s: State) {
    && s.enqueued == DequeuedBy(s.finished) + Items(Log(s.consumer)) + InHand(s.consumer) + s.queue
    && |s.enqueued| == s.produced + s.uncounted
  }

  ghost predicate Counted(s: State) {
    var c := s.consumer;
    && (c.Counting? ==> |c.call.log| > 0 && c.call.log[|c.call.log| - 1].kept)
    && KeptBy(s.finished) + |Batch(Log(c))| == s.consumed + (if c.Counting? then 1 else 0)
    && StaleKeptBy(s.finished) + StaleKept(Log(c))
       == s.staleConsumed + if c.Counting? && Stale(c.call.log[|c.call.log| - 1]) then 1 else 0
  }

  ghost predicate GoodCalls(l: Limits, s: State) {
    && (forall i :: 0 <= i < |s.finished| ==> GoodCall(l, s.finished[i].call))
    && (forall i :: 0 <= i < |s.finished| && s.finished[i].Returned? ==>
          |Batch(s.finished[i].call.log)| == s.finished[i].call.size)
    && (!s.consumer.Idle? ==> GoodCall(l, s.consumer.call))
    && (s.consumer.Holding? ==> |Batch(s.consumer.call.log)| < s.consumer.call.size)
  }

  ghost predicate Bounded(l: Limits, s: State) {
    l.maxsize > 0 ==> |s.queue| <= l.maxsize
  }

  ghost predicate Inv(l: Limits, s: State) {
    Accounted(s) && Counted(s) && GoodCalls(l, s) && Bounded(l, s)
  }

  lemma FinishTotals(fs: seq<Finished>, f: Finished)
    ensures DequeuedBy(fs + [f]) == DequeuedBy(fs) + Items(f.call.log)
    ensures KeptBy(fs + [f]) == KeptBy(fs) + |Batch(f.call.log)|
    ensures StaleKeptBy(fs + [f]) == StaleKeptBy(fs) + StaleKept(f.call.log)
    ensures Requested(fs + [f]) == Requested(fs) + f.call.size
  {
    assert (fs + [f])[..|fs|] == fs;
  }

  lemma InitAccounted(s: State)
    requires Init(s)
    ensures Accounted(s)
  {
    assert DequeuedBy([]) == [] && Items([]) == [];
  }

  lemma InitCounted(s: State)
    requires Init(s)
    ensures Counted(s)
  {
    assert KeptBy([]) == 0 && StaleKeptBy([]) == 0 && Batch([]) == [] && StaleKept([]) == 0;
  }

  lemma InitGood(l: Limits, s: State)
    requires Init(s)
    ensures GoodCalls(l, s) && Bounded(l, s)
  {
  }

  lemma InitKeeps(l: Limits, s: State)
    requires Init(s)
    ensures Inv(l, s)
  {
    InitAccounted(s);
    InitCounted(s);
    InitGood(l, s);
  }

  lemma ProducerKeeps(l: Limits, s: State, s': State)
    requires Inv(l, s) && (EnqueueStep(l, s, s') || CountPutStep(s, s') || VersionStep(s, s'))
    ensures Inv(l, s')
  {
    if EnqueueStep(l, s, s') {
      var item :| s' == s.(queue := s.queue + [item], uncounted := s.uncounted + 1, enqueued := s.enqueued + [item]);
      var before := DequeuedBy(s.finished) + Items(Log(s.consumer)) + InHand(s.consumer);
      assert before + s.queue + [item] == before + (s.queue + [item]);
    }
  }

  lemma BeginKeeps(l: Limits, s: State, s': State)
    requires Inv(l, s) && BeginStep(l, s, s')
    ensures Inv(l, s')
  {
  }

  lemma TakeKeeps(l: Limits, s: State, s': State)
    requires Inv(l, s) && TakeStep(s, s')
    ensures Inv(l, s')
  {
    var before := DequeuedBy(s.finished) + Items(Log(s.consumer));
    assert before + [] + s.queue == before + [s.queue[0]] + s.queue[1..];
  }

  lemma JudgeAccounts(s: State, s': State)
    requires Accounted(s) && JudgeStep(s, s')
    ensures Accounted(s')
  {
    var c := s.consumer.call;
    var j := Judge(c, s.consumer.item, s.version);
    Snoc(c.log, j);
    var done := DequeuedBy(s.finished);
    assert done + Items(c.log) + [j.item] + s.queue == done + (Items(c.log) + [j.item]) + [] + s.queue;
  }

  lemma JudgeKeeps(l: Limits, s: State, s': State)
    requires Inv(l, s) && JudgeStep(s, s')
    ensures Inv(l, s')
  {
    var c := s.consumer.call;
    var j := Judge(c, s.consumer.item, s.version);
    JudgeAccounts(s, s');
    Snoc(c.log, j);
    WellJudgedSnoc(c, j);
  }

  lemma CountKeeps(l: Limits, s: State, s': State)
    requires Inv(l, s) && CountStep(s, s')
    ensures Inv(l, s')
  {
  }

  lemma FinishKeeps(l: Limits, s: State, s': State)
    requires Inv(l, s) && FinishStep(s, s')
    ensures Inv(l, s')
  {
    var c := s.consumer.call;
    var f := if |Batch(c.log)| >= c.size then Returned(c) else TimedOut(c);
    FinishTotals(s.finished, f);
    assert DequeuedBy(s.finished) + Items(c.log) + [] + s.queue
        == DequeuedBy(s.finished) + Items(c.log) + Items([]) + [] + s.queue;
  }

  lemma NextKeeps(l: Limits, s: State, s': State)
    requires Inv(l, s) && Next(l, s, s')
    ensures Inv(l, s')
  {
    if EnqueueStep(l, s, s') || CountPutStep(s, s') || VersionStep(s, s') {
      ProducerKeeps(l, s, s');
    } else if BeginStep(l, s, s') {
      BeginKeeps(l, s, s');
    } else if TakeStep(s, s') {
      TakeKeeps(l, s, s');
    } else if JudgeStep(s, s') {
      JudgeKeeps(l, s, s');
    } else if CountStep(s, s') {
      CountKeeps(l, s, s');
    } else {
      FinishKeeps(l, s, s');
    }
  }

  ghost function Runs(l: Limits): Machine<State> {
    Machine((s: State) => Init(s), (s: State, s': State) => Next(l, s, s'))
  }

  lemma {:induction false} RunInv(l: Limits, run: seq<State>, k: nat)
    requires IsRun(Runs(l), run) && k < |run|
    ensures Inv(l, run[k])
  {
    if k == 0 {
      InitKeeps(l, run[0]);
    } else {
      RunInv(l, run, k - 1);
      assert Runs(l).step(run[k - 1], run[k]);
      NextKeeps(l, run[k - 1], run[k]);
    }
  }

  lemma ReachableInv(l: Limits, s: State)
    requires Reachable(Runs(l), s)
    ensures Inv(l, s)
  {
    var run :| IsRun(Runs(l), run) && run[|run| - 1] == s;
    RunInv(l, run, |run| - 1);
  }

  // ---------------------------------------------------------------------
  // What callers see
  // ---------------------------------------------------------------------

  /** Main result: over all interleavings, what was put in is, in order, what finished calls
      dequeued, what the current call dequeued, what it holds, and what is still queued. A
      returned batch has exactly the size asked for and at most its share of stale items;
      only a stale item is ever dropped, and only when that share is used up. */
  lemma NothingLost(l: Limits, s: State)
    requires Reachable(Runs(l), s)
    ensures s.enqueued == DequeuedBy(s.finished) + Items(Log(s.consumer)) + InHand(s.consumer) + s.queue
    ensures l.maxsize > 0 ==> |s.queue| <= l.maxsize
    ensures forall i :: 0 <= i < |s.finished| ==>
              var c := s.finished[i].call;
              && (s.finished[i].Returned? <==> |Batch(c.log)| == c.size)
              && StaleKept(c.log) <= (if MaxStale(c.size, l.threshold) > 0 then MaxStale(c.size, l.threshold) else 0)
              && forall k :: 0 <= k < |c.log| && !c.log[k].kept ==>
                               Stale(c.log[k]) && StaleKept(c.log[..k]) >= MaxStale(c.size, l.threshold)
  {
    ReachableInv(l, s);
    TimeoutsAreShort(l, s);
    forall i | 0 <= i < |s.finished|
      ensures StaleKept(s.finished[i].call.log)
              <= if MaxStale(s.finished[i].call.size, l.threshold) > 0
                 then MaxStale(s.finished[i].call.size, l.threshold) else 0
    {
      StaleWithin(s.finished[i].call);
    }
  }

  /** A call that timed out came back with less than it was asked for. */
  lemma TimeoutsAreShort(l: Limits, s: State)
    requires Reachable(Runs(l), s)
    ensures forall i :: 0 <= i < |s.finished| && s.finished[i].TimedOut? ==>
                          |Batch(s.finished[i].call.log)| < s.finished[i].call.size
  {
    var inv := (t: State) =>
      forall i :: 0 <= i < |t.finished| && t.finished[i].TimedOut? ==>
                    |Batch(t.finished[i].call.log)| < t.finished[i].call.size;
    InvariantHolds(Runs(l), inv, s);
  }

  lemma CallShare(l: Limits, c: Call)
    requires GoodCall(l, c) && l.threshold >= 0.0
    ensures StaleKept(c.log) as real <= Times(c.size, l.threshold)
  {
    StaleWithin(c);
    TimesNonNegative(c.size, l.threshold);
  }

  lemma {:induction false} StaleShare(l: Limits, fs: seq<Finished>)
    requires l.threshold >= 0.0
    requires forall i :: 0 <= i < |fs| ==> GoodCall(l, fs[i].call)
    ensures StaleKeptBy(fs) as real <= Times(Requested(fs), l.threshold)
  {
    if |fs| > 0 {
      var rest, c := fs[..|fs| - 1], fs[|fs| - 1].call;
      StaleShare(l, rest);
      CallShare(l, c);
      TimesAdd(Requested(rest), c.size, l.threshold);
    }
  }

  lemma {:induction false} AllReturned(l: Limits, fs: seq<Finished>)
    requires forall i :: 0 <= i < |fs| ==> fs[i].Returned? && |Batch(fs[i].call.log)| == fs[i].call.size
    ensures KeptBy(fs) == Requested(fs)
  {
    if |fs| > 0 {
      AllReturned(l, fs[..|fs| - 1]);
    }
  }

  lemma IdleCounts(l: Limits, s: State)
    requires Reachable(Runs(l), s) && s.consumer.Idle?
    ensures s.consumed == KeptBy(s.finished) && s.staleConsumed == StaleKeptBy(s.finished)
    ensures forall i :: 0 <= i < |s.finished| ==> GoodCall(l, s.finished[i].call)
    ensures forall i :: 0 <= i < |s.finished| && s.finished[i].Returned? ==>
                          |Batch(s.finished[i].call.log)| == s.finished[i].call.size
  {
    ReachableInv(l, s);
  }

  /** Between calls, the stale items consumed are within the threshold of what was asked
      for. */
  lemma StaleRequestedRatio(l: Limits, s: State)
    requires Reachable(Runs(l), s) && s.consumer.Idle? && l.threshold >= 0.0
    ensures s.staleConsumed as real <= Times(Requested(s.finished), l.threshold)
  {
    IdleCounts(l, s);
    StaleShare(l, s.finished);
  }

  /** If every call was answered, they are within the threshold of what was consumed. */
  lemma StaleRatio(l: Limits, s: State)
    requires Reachable(Runs(l), s) && s.consumer.Idle? && l.threshold >= 0.0
    requires forall i :: 0 <= i < |s.finished| ==> s.finished[i].Returned?
    ensures s.staleConsumed as real <= Times(s.consumed, l.threshold)
  {
    StaleRequestedRatio(l, s);
    IdleCounts(l, s);
    AllReturned(l, s.finished);
  }

  // ---------------------------------------------------------------------
  // When the stale part of what was consumed stays within the threshold
  // ---------------------------------------------------------------------

  /** Between calls, the stale items consumed are within the threshold of all that was. */
  ghost predicate RatioKept(l: Limits) {
    forall s :: Reachable(Runs(l), s) && s.consumer.Idle? ==> s.staleConsumed as real <= Times(s.consumed, l.threshold)
  }

  /** An item versioned 0 is put, the version becomes `version`, and a call for `size` items
      keeps the item and then times out: the states passed. */
  function Example(l: Limits, version: int, size: nat, k: nat): State {
    var item := Item(0, 0);
    var none := Call(size, MaxStale(size, l.threshold), []);
    var one := none.(log := [Judged(item, version, true)]);
    var stale := if version > 0 then 1 else 0;
    var start := State([], 0, 0, 0, 0, 0, Idle, [], []);
    var put := start.(queue := [item], uncounted := 1, enqueued := [item]);
    var counted := put.(uncounted := 0, produced := 1);
    var later := counted.(version := version);
    match k
    case 0 => start
    case 1 => put
    case 2 => counted
    case 3 => later
    case 4 => later.(consumer := Polling(none))
    case 5 => later.(queue := [], consumer := Holding(none, item))
    case 6 => later.(queue := [], consumer := Counting(one))
    case 7 => later.(queue := [], consumed := 1, staleConsumed := stale, consumer := Polling(one))
    case _ => later.(queue := [], consumed := 1, staleConsumed := stale, finished := [TimedOut(one)])
  }

  lemma OneJudged(j: Judged)
    requires j.kept
    ensures Batch([j]) == [j.item] && Batch([]) == [] && StaleKept([]) == 0
  {
    Snoc([], j);
    assert [] + [j] == [j];
  }

  lemma ExampleProduces(l: Limits, version: int, size: nat, k: nat)
    requires k < 4
    ensures Next(l, Example(l, version, size, k), Example(l, version, size, k + 1))
  {
    var s, item := Example(l, version, size, k), Item(0, 0);
    if k == 0 {
      assert Example(l, version, size, 1)
          == s.(queue := s.queue + [item], uncounted := s.uncounted + 1, enqueued := s.enqueued + [item]);
    } else if k == 3 {
      assert Example(l, version, size, 4) == s.(consumer := Polling(Call(size, MaxStale(size, l.threshold), [])));
    }
  }

  lemma ExampleConsumes(l: Limits, version: int, size: nat, k: nat)
    requires 4 <= k < 8 && size >= 2 && (version > 0 ==> MaxStale(size, l.threshold) >= 1)
    ensures Next(l, Example(l, version, size, k), Example(l, version, size, k + 1))
  {
    var s, s' := Example(l, version, size, k), Example(l, version, size, k + 1);
    var j := Judged(Item(0, 0), version, true);
    OneJudged(j);
    if k == 4 {
      assert TakeStep(s, s');
    } else if k == 5 {
      assert [] + [j] == [j];
      assert JudgeStep(s, s');
    } else if k == 6 {
      assert CountStep(s, s');
    } else {
      assert FinishStep(s, s');
    }
  }

  lemma {:induction false} ExampleReachable(l: Limits, version: int, size: nat, k: nat)
    requires k <= 8 && size >= 2 && (version > 0 ==> MaxStale(size, l.threshold) >= 1)
    ensures Reachable(Runs(l), Example(l, version, size, k))
  {
    if k == 0 {
      StartReachable(Runs(l), Example(l, version, size, 0));
    } else {
      ExampleReachable(l, version, size, k - 1);
      if k <= 4 {
        ExampleProduces(l, version, size, k - 1);
      } else {
        ExampleConsumes(l, version, size, k - 1);
      }
      OneMore(Runs(l), Example(l, version, size, k - 1), Example(l, version, size, k));
    }
  }

  /** For a threshold between zero and one, a batch size whose share is at least one item. */
  lemma SizeWithShare(threshold: real) returns (size: nat)
    requires 0.0 < threshold < 1.0
    ensures size >= 2 && MaxStale(size, threshold) >= 1
  {
    var inverse := Quotient(1.0, threshold);
    QuotientTimes(1.0, threshold);
    size := if inverse.Floor < 0 then 2 else inverse.Floor as nat + 2;
    TimesIsProduct(size, threshold);
    ProductGrows(inverse, size as real, threshold);
  }

  /** A positive threshold below one is exceeded by one stale item, a negative one by any. */
  lemma RatioBroken(l: Limits)
    requires l.threshold != 0.0 && l.threshold < 1.0
    ensures !RatioKept(l)
  {
    var size, version := 2, 0;
    if l.threshold > 0.0 {
      size := SizeWithShare(l.threshold);
      version := 1;
    }
    ExampleReachable(l, version, size, 8);
    var s := Example(l, version, size, 8);
    assert Times(1, l.threshold) == Times(0, l.threshold) + l.threshold;
    assert s.staleConsumed as real > Times(s.consumed, l.threshold);
  }

  lemma {:induction false} StaleArePart(fs: seq<Finished>)
    ensures StaleKeptBy(fs) <= KeptBy(fs)
  {
    if |fs| > 0 {
      StaleArePart(fs[..|fs| - 1]);
      StaleIsPart(fs[|fs| - 1].call.log);
    }
  }

  lemma {:induction false} StaleIsPart(log: seq<Judged>)
    ensures StaleKept(log) <= |Batch(log)|
  {
    if |log| > 0 {
      StaleIsPart(log[..|log| - 1]);
    }
  }

  lemma {:induction false} TimesAtLeast(n: nat, x: real)
    requires x >= 1.0
    ensures Times(n, x) >= n as real
  {
    if n > 0 {
      TimesAtLeast(n - 1, x);
    }
  }

  lemma {:induction false} TimesZero(n: nat)
    ensures Times(n, 0.0) == 0.0
  {
    if n > 0 {
      TimesZero(n - 1);
    }
  }

  /** Main result: calls that time out keep what they counted, so over all interleavings the
      stale part of what was consumed stays within the threshold if and only if the threshold
      admits no stale item at all or is no restriction. */
  lemma StaleRatioIff(l: Limits)
    ensures RatioKept(l) <==> l.threshold == 0.0 || l.threshold >= 1.0
  {
    if l.threshold == 0.0 || l.threshold >= 1.0 {
      forall s | Reachable(Runs(l), s) && s.consumer.Idle?
        ensures s.staleConsumed as real <= Times(s.consumed, l.threshold)
      {
        RatioKeptAt(l, s);
      }
    } else {
      RatioBroken(l);
    }
  }

  lemma RatioKeptAt(l: Limits, s: State)
    requires l.threshold == 0.0 || l.threshold >= 1.0
    requires Reachable(Runs(l), s) && s.consumer.Idle?
    ensures s.staleConsumed as real <= Times(s.consumed, l.threshold)
  {
    IdleCounts(l, s);
    if l.threshold == 0.0 {
      StaleRequestedRatio(l, s);
      TimesZero(Requested(s.finished));
      TimesZero(s.consumed);
    } else {
      StaleArePart(s.finished);
      TimesAtLeast(s.consumed, l.threshold);
    }
  }
}
