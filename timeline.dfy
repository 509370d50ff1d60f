/**
 * The event-merge algorithm of `micropump_set_voltages_with_delay`: per-channel
 * on-delays and a common duration become a time-ordered list of full
 * four-channel voltage vectors, one per distinct instant.
 */
module Timeline {
  import opened Commands

  /** One entry of the collapsed timeline: the vector to issue `at` milliseconds after the start. */
  datatype Step = Step(at: int, volts: Vec)

  /**
   * `on_times + off_times`: event k < 4 turns channel k on at its delay, event
   * k >= 4 turns channel k - 4 off `duration` ms after its delay.
   */
  function EventKeys(delays: seq<nat>, duration: nat): (keys: seq<nat>)
    requires |delays| == 4
    ensures |keys| == 8
    ensures forall c :: 0 <= c < 4 ==> keys[c] == delays[c] && keys[c + 4] == delays[c] + duration
  {
    delays + seq(4, c requires 0 <= c < 4 => delays[c] + duration)
  }

  /** `order` visits indices of `keys` in non-decreasing key order. */
  predicate SortedBy(keys: seq<int>, order: seq<nat>) {
    && (forall j :: 0 <= j < |order| ==> order[j] < |keys|)
    && (forall i, j :: 0 <= i < j < |order| ==> keys[order[i]] <= keys[order[j]])
  }

  /** `order` is an argsort of `keys`: every index appears, in non-decreasing key order; ties in any order. */
  predicate IsArgSort(keys: seq<int>, order: seq<nat>) {
    |order| == |keys| && SortedBy(keys, order) && forall k :: 0 <= k < |keys| ==> k in order
  }

  /** Event `k` written into the running vector `s`. */
  function Apply(s: Vec, on: Vec, off: Vec, k: nat): (r: Vec)
    requires k < 8
  {
    if k < 4 then s[k := on[k]] else s[k - 4 := off[k - 4]]
  }

  predicate EventIndices(p: seq<nat>) {
    forall j :: 0 <= j < |p| ==> p[j] < 8
  }

  /** The running vector after the events of `p`, applied in order from the all-off base `off`. */
  function State(on: Vec, off: Vec, p: seq<nat>): (r: Vec)
    requires EventIndices(p)
  {
    if p == [] then off else Apply(State(on, off, p[..|p| - 1]), on, off, p[|p| - 1])
  }

  /** The `voltages` list before collapsing: the base vector, then one vector per event. */
  function Snapshots(on: Vec, off: Vec, order: seq<nat>): (r: seq<Vec>)
    requires EventIndices(order)
    ensures |r| == |order| + 1
  {
    seq(|order| + 1, j requires 0 <= j <= |order| => State(on, off, order[..j]))
  }

  /** The `times` list before collapsing: 0 for the base vector, then each event's time. */
  function EventTimes(keys: seq<int>, order: seq<nat>): (r: seq<int>)
    requires forall j :: 0 <= j < |order| ==> order[j] < |keys|
    ensures |r| == |order| + 1
  {
    [0] + seq(|order|, j requires 0 <= j < |order| => keys[order[j]])
  }

  /** Position `j` holds the last occurrence of its value in `t`. */
  predicate IsLast(t: seq<int>, j: nat)
    requires j < |t|
  {
    forall m :: j < m < |t| ==> t[m] != t[j]
  }

  /**
   * The positions from `j` on that hold the last occurrence of their value, in
   * increasing order. This is what reversing, `np.unique(..., return_index=True)`,
   * sorting the indexes and reversing back select.
   */
  function LastOccurrencesFrom(t: seq<int>, j: nat): (r: seq<nat>)
    requires j <= |t|
    ensures forall i :: 0 <= i < |r| ==> j <= r[i] < |t|
    decreases |t| - j
  {
    if j == |t| then []
    else if t[j] in t[j + 1..] then LastOccurrencesFrom(t, j + 1)
    else [j] + LastOccurrencesFrom(t, j + 1)
  }

  /** The collapsed timeline for one argsort `order` of the event keys. */
  function Timeline(on: Vec, off: Vec, delays: seq<nat>, duration: nat, order: seq<nat>): (r: seq<Step>)
    requires |delays| == 4 && EventIndices(order)
  {
    var times := EventTimes(EventKeys(delays, duration), order);
    var volts := Snapshots(on, off, order);
    var kept := LastOccurrencesFrom(times, 0);
    seq(|kept|, n requires 0 <= n < |kept| => Step(times[kept[n]], volts[kept[n]]))
  }

  /** The instants at which some channel changes, together with the start. */
  function ChangeTimes(delays: seq<nat>, duration: nat): set<int>
    requires |delays| == 4
  {
    {0} + (set c | 0 <= c < 4 :: delays[c] as int) + (set c | 0 <= c < 4 :: delays[c] + duration)
  }

  /**
   * What the source promises of the collapsed timeline: it starts at 0, its
   * times strictly increase and are exactly the change instants, and at every
   * step a channel is at its on-voltage exactly while it is inside its window.
   */
  predicate IsTimeline(on: Vec, off: Vec, delays: seq<nat>, duration: nat, steps: seq<Step>)
    requires |delays| == 4
  {
    TimesAreChangeTimes(delays, duration, steps) && ChannelsFollowWindows(on, off, delays, duration, steps)
  }

  /** The timeline starts at 0 and its times strictly increase through exactly the change instants. */
  predicate TimesAreChangeTimes(delays: seq<nat>, duration: nat, steps: seq<Step>)
    requires |delays| == 4
  {
    && |steps| > 0
    && steps[0].at == 0
    && (forall i, j :: 0 <= i < j < |steps| ==> steps[i].at < steps[j].at)
    && (set i | 0 <= i < |steps| :: steps[i].at) == ChangeTimes(delays, duration)
  }

  /** At every step channel c is at its on-voltage exactly while delays[c] <= t < delays[c] + duration. */
  predicate ChannelsFollowWindows(on: Vec, off: Vec, delays: seq<nat>, duration: nat, steps: seq<Step>)
    requires |delays| == 4
  {
    forall i, c :: 0 <= i < |steps| && 0 <= c < 4 ==>
      steps[i].volts[c] == if delays[c] <= steps[i].at < delays[c] + duration then on[c] else off[c]
  }

  // ---------------------------------------------------------------------------
  // The algorithm, as the source runs it

  /** The multiset of indices 0 .. n - 1. */
  ghost function Upto(n: nat): multiset<nat> {
    if n == 0 then multiset{} else Upto(n - 1) + multiset{n - 1}
  }

  lemma {:induction false} UptoMembers(n: nat)
    ensures forall m: nat :: m in Upto(n) <==> m < n
  {
    if n > 0 {
      UptoMembers(n - 1);
    }
  }

  /** `np.argsort` of the event keys; here a stable insertion sort, one of the orders numpy may return. */
  method ArgSort(keys: seq<int>) returns (order: seq<nat>)
    ensures IsArgSort(keys, order)
  {
    order := [];
    var i := 0;
    while i < |keys|
      invariant 0 <= i <= |keys|
      invariant |order| == i
      invariant multiset(order) == Upto(i)
      invariant SortedBy(keys, order)
    {
      order := InsertIndex(keys, order, i);
      i := i + 1;
    }
    SortedPermutationIsArgSort(keys, order);
  }

  /** One step of the insertion sort: index `i` placed after every index whose key is not above its own. */
  method InsertIndex(keys: seq<int>, order: seq<nat>, i: nat) returns (next: seq<nat>)
    requires SortedBy(keys, order) && multiset(order) == Upto(i) && i < |keys|
    ensures |next| == |order| + 1
    ensures SortedBy(keys, next) && multiset(next) == Upto(i + 1)
  {
    var p := FindSlot(keys, order, keys[i]);
    InsertSorted(keys, order, p, i);
    next := order[..p] + [i] + order[p..];
  }

  /** An ordering that holds each index once and is sorted by key is an argsort. */
  lemma SortedPermutationIsArgSort(keys: seq<int>, order: seq<nat>)
    requires |order| == |keys| && SortedBy(keys, order) && multiset(order) == Upto(|keys|)
    ensures IsArgSort(keys, order)
  {
    UptoMembers(|keys|);
    forall k | 0 <= k < |keys| ensures k in order {
      assert k in multiset(order);
    }
  }

  /** The insertion point for key `x`: after every key not above it, before every key above it. */
  method FindSlot(keys: seq<int>, order: seq<nat>, x: int) returns (p: nat)
    requires SortedBy(keys, order)
    ensures p <= |order|
    ensures forall j :: 0 <= j < p ==> keys[order[j]] <= x
    ensures forall j :: p <= j < |order| ==> keys[order[j]] > x
  {
    p := |order|;
    while p > 0 && keys[order[p - 1]] > x
      invariant 0 <= p <= |order|
      invariant forall j :: p <= j < |order| ==> keys[order[j]] > x
    {
      p := p - 1;
    }
    if p > 0 {
      assert keys[order[p - 1]] <= x;
    }
  }

  /** Inserting index `i` where its key fits keeps the order sorted and adds just `i`. */
  lemma InsertSorted(keys: seq<int>, before: seq<nat>, p: nat, i: nat)
    requires SortedBy(keys, before) && i < |keys| && p <= |before|
    requires multiset(before) == Upto(i)
    requires forall j :: 0 <= j < p ==> keys[before[j]] <= keys[i]
    requires forall j :: p <= j < |before| ==> keys[before[j]] > keys[i]
    ensures SortedBy(keys, before[..p] + [i] + before[p..])
    ensures multiset(before[..p] + [i] + before[p..]) == Upto(i + 1)
  {
    var after := before[..p] + [i] + before[p..];
    assert |after| == |before| + 1;
    assert forall j :: 0 <= j < p ==> after[j] == before[j];
    assert after[p] == i;
    assert forall j :: p < j < |after| ==> after[j] == before[j - 1];
    forall a, b | 0 <= a < b < |after| ensures keys[after[a]] <= keys[after[b]] {
      if b < p {
        assert keys[before[a]] <= keys[before[b]];
      } else if b == p {
      } else if a < p {
        assert keys[before[a]] <= keys[before[b - 1]];
      } else if a == p {
      } else {
        assert keys[before[a - 1]] <= keys[before[b - 1]];
      }
    }
    InsertMultiset(before, p, i);
  }

  lemma InsertMultiset(before: seq<nat>, p: nat, i: nat)
    requires p <= |before| && multiset(before) == Upto(i)
    ensures multiset(before[..p] + [i] + before[p..]) == Upto(i + 1)
  {
    assert before == before[..p] + before[p..];
    calc {
      multiset(before[..p] + [i] + before[p..]);
      multiset(before[..p]) + multiset{i} + multiset(before[p..]);
      multiset(before) + multiset{i};
    }
  }

  /**
   * Lines 109-148 of the transmitter: build the eight events, apply them in
   * sorted order from the all-off base, and keep the last vector of every instant.
   */
  method ScheduleTimeline(on: Vec, off: Vec, delays: seq<nat>, duration: nat) returns (steps: seq<Step>)
    requires |delays| == 4 && duration > 0
    ensures IsTimeline(on, off, delays, duration, steps)
  {
    var keys := delays + seq(4, c requires 0 <= c < 4 => delays[c] + duration);
    assert keys == EventKeys(delays, duration);
    var order := ArgSort(keys);
    var voltages, times := ReplayEvents(on, off, delays, duration, order);
    var kept := LastOccurrencesFrom(times, 0);
    steps := seq(|kept|, n requires 0 <= n < |kept| => Step(times[kept[n]], voltages[kept[n]]));
    assert steps == Timeline(on, off, delays, duration, order);
    TimelineCorrect(on, off, delays, duration, order);
  }

  /** The events of `order` applied one by one: the running vectors and the times at which they are set. */
  method ReplayEvents(on: Vec, off: Vec, delays: seq<nat>, duration: nat, order: seq<nat>)
    returns (voltages: seq<Vec>, times: seq<int>)
    requires |delays| == 4 && EventIndices(order)
    ensures voltages == Snapshots(on, off, order) && times == EventTimes(EventKeys(delays, duration), order)
  {
    var keys := EventKeys(delays, duration);
    voltages, times := [off], [0];
    var i := 0;
    while i < |order|
      invariant 0 <= i <= |order|
      invariant voltages == Snapshots(on, off, order[..i])
      invariant times == EventTimes(keys, order[..i])
    {
      var pos := order[i];
      ExtendPrefix(on, off, keys, order, i);
      var setting := voltages[|voltages| - 1];
      if pos < 4 {
        setting := setting[pos := on[pos]];
        times := times + [delays[pos]];
      } else {
        var c := pos - 4;
        setting := setting[c := off[c]];
        times := times + [delays[c] + duration];
      }
      voltages := voltages + [setting];
      i := i + 1;
    }
    assert order[..|order|] == order;
  }

  // ---------------------------------------------------------------------------
  // Why any argsort yields the promised timeline

  /** One more event extends both uncollapsed lists by that event's vector and time. */
  lemma ExtendPrefix(on: Vec, off: Vec, keys: seq<int>, order: seq<nat>, i: nat)
    requires i < |order| && EventIndices(order) && |keys| == 8
    ensures var s := Snapshots(on, off, order[..i]);
      Snapshots(on, off, order[..i + 1]) == s + [Apply(s[i], on, off, order[i])]
    ensures EventTimes(keys, order[..i + 1]) == EventTimes(keys, order[..i]) + [keys[order[i]]]
  {
    var s := Snapshots(on, off, order[..i]);
    var s' := Snapshots(on, off, order[..i + 1]);
    assert order[..i + 1][..i] == order[..i] && order[..i + 1][i] == order[i];
    forall j | 0 <= j <= i + 1 ensures s'[j] == (s + [Apply(s[i], on, off, order[i])])[j] {
      if j <= i {
        assert order[..i + 1][..j] == order[..i][..j];
      } else {
        assert order[..i][..i] == order[..i];
        assert order[..i + 1][..j] == order[..i + 1];
      }
    }
  }

  ghost predicate Increasing(r: seq<nat>) {
    forall a, b :: 0 <= a < b < |r| ==> r[a] < r[b]
  }

  /** `r` lists, in increasing order, exactly the last-occurrence positions of `t` from `j` on. */
  ghost predicate ExactlyLastsFrom(t: seq<int>, j: nat, r: seq<nat>) {
    && Increasing(r)
    && (forall a :: 0 <= a < |r| ==> r[a] < |t| && IsLast(t, r[a]))
    && (forall m :: j <= m < |t| && IsLast(t, m) ==> m in r)
  }

  lemma {:induction false} LastOccurrencesFromSpec(t: seq<int>, j: nat)
    requires j <= |t|
    ensures ExactlyLastsFrom(t, j, LastOccurrencesFrom(t, j))
    decreases |t| - j
  {
    if j < |t| {
      LastOccurrencesFromSpec(t, j + 1);
      var r := LastOccurrencesFrom(t, j);
      var rest := LastOccurrencesFrom(t, j + 1);
      if t[j] in t[j + 1..] {
        assert r == rest;
        var q :| 0 <= q < |t[j + 1..]| && t[j + 1..][q] == t[j];
        assert t[j + 1 + q] == t[j];
        assert !IsLast(t, j);
      } else {
        forall m | j < m < |t| ensures t[m] != t[j] {
          assert t[m] == t[j + 1..][m - j - 1];
        }
        assert IsLast(t, j);
        assert r == [j] + rest;
        assert forall a :: 0 < a < |r| ==> r[a] == rest[a - 1];
      }
    }
  }

  /** Every value of `t` has a last occurrence at or after any of its positions. */
  lemma {:induction false} ExistsLast(t: seq<int>, m: nat)
    requires m < |t|
    ensures exists m' :: m <= m' < |t| && t[m'] == t[m] && IsLast(t, m')
    decreases |t| - m
  {
    if !IsLast(t, m) {
      var q :| m < q < |t| && t[q] == t[m];
      ExistsLast(t, q);
    }
  }

  /** The collapse keeps exactly the set of values. */
  lemma KeptValues(t: seq<int>)
    ensures var r := LastOccurrencesFrom(t, 0);
      (set i | 0 <= i < |r| :: t[r[i]]) == (set m | 0 <= m < |t| :: t[m])
  {
    var r := LastOccurrencesFrom(t, 0);
    LastOccurrencesFromSpec(t, 0);
    forall m | 0 <= m < |t| ensures t[m] in (set i | 0 <= i < |r| :: t[r[i]]) {
      ExistsLast(t, m);
      var m' :| m <= m' < |t| && t[m'] == t[m] && IsLast(t, m');
      var i :| 0 <= i < |r| && r[i] == m';
    }
  }

  /** Collapsing a non-decreasing list leaves a strictly increasing one. */
  lemma KeptIncreasing(t: seq<int>)
    requires forall a, b :: 0 <= a <= b < |t| ==> t[a] <= t[b]
    ensures var r := LastOccurrencesFrom(t, 0);
      forall a, b :: 0 <= a < b < |r| ==> t[r[a]] < t[r[b]]
  {
    var r := LastOccurrencesFrom(t, 0);
    LastOccurrencesFromSpec(t, 0);
    forall a, b | 0 <= a < b < |r| ensures t[r[a]] < t[r[b]] {
      assert r[a] < r[b];
      assert IsLast(t, r[a]);
    }
  }

  /** Of a nondecreasing list, the first kept occurrence carries the first value. */
  lemma KeptStartsAtFirst(t: seq<int>)
    requires |t| > 0 && forall a, b :: 0 <= a <= b < |t| ==> t[a] <= t[b]
    ensures var r := LastOccurrencesFrom(t, 0); |r| > 0 && t[r[0]] == t[0]
  {
    var r := LastOccurrencesFrom(t, 0);
    LastOccurrencesFromSpec(t, 0);
    KeptIncreasing(t);
    ExistsLast(t, 0);
    var m :| 0 <= m < |t| && t[m] == t[0] && IsLast(t, m);
    var z :| 0 <= z < |r| && r[z] == m;
    assert t[r[0]] <= t[r[z]];
  }

  lemma EventTimesNondecreasing(keys: seq<int>, order: seq<nat>)
    requires SortedBy(keys, order)
    requires forall k :: 0 <= k < |keys| ==> keys[k] >= 0
    ensures var t := EventTimes(keys, order);
      forall a, b :: 0 <= a <= b < |t| ==> t[a] <= t[b]
  {
    var t := EventTimes(keys, order);
    forall a, b | 0 <= a <= b < |t| ensures t[a] <= t[b] {
      if 0 < a < b {
        assert t[a] == keys[order[a - 1]] && t[b] == keys[order[b - 1]];
      }
    }
  }

  /** The instants of the uncollapsed list are the start and every event key. */
  lemma EventTimesValues(delays: seq<nat>, duration: nat, order: seq<nat>)
    requires |delays| == 4
    requires IsArgSort(EventKeys(delays, duration), order)
    ensures var t := EventTimes(EventKeys(delays, duration), order);
      (set m | 0 <= m < |t| :: t[m]) == ChangeTimes(delays, duration)
  {
    EventTimesAreChangeTimes(delays, duration, order);
    ChangeTimesAreEventTimes(delays, duration, order);
  }

  /** Every instant of the uncollapsed list is the start or an event key. */
  lemma EventTimesAreChangeTimes(delays: seq<nat>, duration: nat, order: seq<nat>)
    requires |delays| == 4
    requires IsArgSort(EventKeys(delays, duration), order)
    ensures var t := EventTimes(EventKeys(delays, duration), order);
      forall m :: 0 <= m < |t| ==> t[m] in ChangeTimes(delays, duration)
  {
    var keys := EventKeys(delays, duration);
    var t := EventTimes(keys, order);
    forall m | 0 < m < |t| ensures t[m] in ChangeTimes(delays, duration) {
      var k := order[m - 1];
      assert t[m] == keys[k];
      if k < 4 {
        assert t[m] in (set c | 0 <= c < 4 :: delays[c] as int);
      } else {
        assert t[m] in (set c | 0 <= c < 4 :: delays[c] + duration) by {
          assert t[m] == delays[k - 4] + duration;
        }
      }
    }
  }

  /** The start and every event key appear in the uncollapsed list. */
  lemma ChangeTimesAreEventTimes(delays: seq<nat>, duration: nat, order: seq<nat>)
    requires |delays| == 4
    requires IsArgSort(EventKeys(delays, duration), order)
    ensures var t := EventTimes(EventKeys(delays, duration), order);
      forall x :: x in ChangeTimes(delays, duration) ==> x in (set m | 0 <= m < |t| :: t[m])
  {
    var keys := EventKeys(delays, duration);
    var t := EventTimes(keys, order);
    forall x | x in ChangeTimes(delays, duration) ensures x in (set m | 0 <= m < |t| :: t[m]) {
      if x == 0 {
        assert t[0] == 0;
      } else {
        var k: nat;
        if x in (set c | 0 <= c < 4 :: delays[c] as int) {
          var c :| 0 <= c < 4 && delays[c] as int == x;
          k := c;
        } else {
          var c :| 0 <= c < 4 && delays[c] + duration == x;
          k := c + 4;
        }
        assert k in order;
        var p :| 0 <= p < |order| && order[p] == k;
        assert t[p + 1] == x;
      }
    }
  }


  /**
   * Event `k` lies in the prefix before the last occurrence of an instant exactly
   * when it happens no later than that instant.
   */
  lemma PrefixMembership(keys: seq<nat>, order: seq<nat>, j: nat)
    requires IsArgSort(keys, order)
    requires j < |EventTimes(keys, order)| && IsLast(EventTimes(keys, order), j)
    ensures forall k :: 0 <= k < |keys| ==> (k in order[..j] <==> keys[k] <= EventTimes(keys, order)[j])
  {
    var t := EventTimes(keys, order);
    EventTimesNondecreasing(keys, order);
    forall k | 0 <= k < |keys| ensures k in order[..j] <==> keys[k] <= t[j] {
      assert k in order;
      var p :| 0 <= p < |order| && order[p] == k;
      assert t[p + 1] == keys[k];
      if k in order[..j] {
        var q :| 0 <= q < j && order[q] == k;
        assert t[q + 1] == keys[k];
      }
      if p < j {
        assert order[..j][p] == k;
      }
    }
  }

  /** The channel value a prefix of events leaves, read off which of the channel's events it holds. */
  function Expected(on: Vec, off: Vec, p: seq<nat>, c: nat): int
    requires c < 4
  {
    if c + 4 in p then off[c] else if c in p then on[c] else off[c]
  }

  /**
   * In sorted order a channel's on event precedes its off event (duration > 0),
   * so after any sorted prefix the channel is on exactly when the prefix holds its
   * on event but not its off event.
   */
  lemma {:induction false} StateChannels(on: Vec, off: Vec, delays: seq<nat>, duration: nat, p: seq<nat>)
    requires |delays| == 4 && duration > 0
    requires SortedBy(EventKeys(delays, duration), p)
    ensures EventIndices(p)
    ensures forall c :: 0 <= c < 4 ==> State(on, off, p)[c] == Expected(on, off, p, c)
    decreases |p|
  {
    var keys := EventKeys(delays, duration);
    if p != [] {
      var p' := p[..|p| - 1];
      var k := p[|p| - 1];
      assert SortedBy(keys, p');
      StateChannels(on, off, delays, duration, p');
      assert p == p' + [k];
      assert State(on, off, p) == Apply(State(on, off, p'), on, off, k);
      forall c | 0 <= c < 4 ensures State(on, off, p)[c] == Expected(on, off, p, c) {
        if k == c {
          OffNotBeforeOn(delays, duration, p, c);
        }
        ApplyExpected(on, off, p', k, c, State(on, off, p'));
      }
    }
  }

  /** One more event keeps channel c at its expected voltage, unless it is c's on event with c's off event already past. */
  lemma ApplyExpected(on: Vec, off: Vec, p: seq<nat>, k: nat, c: nat, s: Vec)
    requires k < 8 && c < 4 && s[c] == Expected(on, off, p, c)
    requires k == c ==> c + 4 !in p
    ensures Apply(s, on, off, k)[c] == Expected(on, off, p + [k], c)
  {
    assert (c in p + [k] <==> c in p || k == c) && (c + 4 in p + [k] <==> c + 4 in p || k == c + 4);
  }

  /** In a sorted prefix ending with channel c's on event, c's off event (later, as duration > 0) is absent. */
  lemma OffNotBeforeOn(delays: seq<nat>, duration: nat, p: seq<nat>, c: nat)
    requires |delays| == 4 && duration > 0 && c < 4
    requires SortedBy(EventKeys(delays, duration), p)
    requires p != [] && p[|p| - 1] == c
    ensures c + 4 !in p[..|p| - 1]
  {
    var keys := EventKeys(delays, duration);
    assert keys[c] < keys[c + 4];
    forall q | 0 <= q < |p| - 1 ensures p[q] != c + 4 {
      assert keys[p[q]] <= keys[p[|p| - 1]];
    }
  }

  /** The times of the collapsed timeline start at 0, strictly increase and are the change instants. */
  lemma TimelineTimes(on: Vec, off: Vec, delays: seq<nat>, duration: nat, order: seq<nat>)
    requires |delays| == 4
    requires IsArgSort(EventKeys(delays, duration), order)
    ensures EventIndices(order)
    ensures TimesAreChangeTimes(delays, duration, Timeline(on, off, delays, duration, order))
  {
    var keys := EventKeys(delays, duration);
    var times := EventTimes(keys, order);
    var kept := LastOccurrencesFrom(times, 0);
    var steps := Timeline(on, off, delays, duration, order);
    assert forall n :: 0 <= n < |steps| ==> steps[n].at == times[kept[n]];
    EventTimesNondecreasing(keys, order);
    KeptIncreasing(times);
    KeptValues(times);
    EventTimesValues(delays, duration, order);
    assert (set i | 0 <= i < |steps| :: steps[i].at) == (set i | 0 <= i < |kept| :: times[kept[i]]);
    KeptStartsAtFirst(times);
  }

  /** At every collapsed step each channel is on exactly inside its window. */
  lemma TimelineChannels(on: Vec, off: Vec, delays: seq<nat>, duration: nat, order: seq<nat>)
    requires |delays| == 4 && duration > 0
    requires IsArgSort(EventKeys(delays, duration), order)
    ensures EventIndices(order)
    ensures ChannelsFollowWindows(on, off, delays, duration, Timeline(on, off, delays, duration, order))
  {
    var steps := Timeline(on, off, delays, duration, order);
    forall i, c | 0 <= i < |steps| && 0 <= c < 4
      ensures steps[i].volts[c] == if delays[c] <= steps[i].at < delays[c] + duration then on[c] else off[c]
    {
      StepFollowsWindows(on, off, delays, duration, order, i);
    }
  }

  /** One collapsed step: the vector kept at the last event of its instant has each channel on inside its window. */
  lemma StepFollowsWindows(on: Vec, off: Vec, delays: seq<nat>, duration: nat, order: seq<nat>, i: nat)
    requires |delays| == 4 && duration > 0
    requires IsArgSort(EventKeys(delays, duration), order) && EventIndices(order)
    requires i < |Timeline(on, off, delays, duration, order)|
    ensures var step := Timeline(on, off, delays, duration, order)[i];
      forall c :: 0 <= c < 4 ==> step.volts[c] == if delays[c] <= step.at < delays[c] + duration then on[c] else off[c]
  {
    var keys := EventKeys(delays, duration);
    var times := EventTimes(keys, order);
    var kept := LastOccurrencesFrom(times, 0);
    var steps := Timeline(on, off, delays, duration, order);
    LastOccurrencesFromSpec(times, 0);
    var j := kept[i];
    assert IsLast(times, j);
    PrefixMembership(keys, order, j);
    assert SortedBy(keys, order[..j]);
    StateChannels(on, off, delays, duration, order[..j]);
    assert steps[i].volts == State(on, off, order[..j]);
    assert steps[i].at == times[j];
  }

  /** Steps of any collapsed timeline built from an argsort meet every promise of `IsTimeline`. */
  lemma TimelineCorrect(on: Vec, off: Vec, delays: seq<nat>, duration: nat, order: seq<nat>)
    requires |delays| == 4 && duration > 0
    requires IsArgSort(EventKeys(delays, duration), order)
    ensures EventIndices(order)
    ensures IsTimeline(on, off, delays, duration, Timeline(on, off, delays, duration, order))
  {
    TimelineTimes(on, off, delays, duration, order);
    TimelineChannels(on, off, delays, duration, order);
  }

  // ---------------------------------------------------------------------------
  // The promise determines the timeline, so argsort's tie order does not matter

  ghost predicate StrictlyIncreasing(a: seq<int>) {
    forall i, j :: 0 <= i < j < |a| ==> a[i] < a[j]
  }

  lemma {:induction false} StrictlyIncreasingBySet(a: seq<int>, b: seq<int>)
    requires StrictlyIncreasing(a) && StrictlyIncreasing(b)
    requires (set i | 0 <= i < |a| :: a[i]) == (set i | 0 <= i < |b| :: b[i])
    ensures a == b
    decreases |a|
  {
    var sa := set i | 0 <= i < |a| :: a[i];
    if a != [] {
      assert a[0] in sa;
      var q :| 0 <= q < |b| && b[q] == a[0];
      assert b[0] in sa;
      var p :| 0 <= p < |a| && a[p] == b[0];
      assert a[0] <= a[p] && b[0] <= b[q];
      assert a[0] == b[0];
      var ta := set i | 0 <= i < |a[1..]| :: a[1..][i];
      var tb := set i | 0 <= i < |b[1..]| :: b[1..][i];
      forall x | x in ta ensures x in tb {
        var i :| 0 <= i < |a[1..]| && a[1..][i] == x;
        assert x in sa && x != a[0];
        var k :| 0 <= k < |b| && b[k] == x;
        assert k > 0 && b[1..][k - 1] == x;
      }
      forall x | x in tb ensures x in ta {
        var i :| 0 <= i < |b[1..]| && b[1..][i] == x;
        assert b[i + 1] in sa && x != b[0];
        var k :| 0 <= k < |a| && a[k] == x;
        assert k > 0 && a[1..][k - 1] == x;
      }
      StrictlyIncreasingBySet(a[1..], b[1..]);
      assert a == [a[0]] + a[1..] && b == [b[0]] + b[1..];
    }
  }

  function Times(steps: seq<Step>): (r: seq<int>)
    ensures |r| == |steps| && forall i :: 0 <= i < |steps| ==> r[i] == steps[i].at
  {
    seq(|steps|, i requires 0 <= i < |steps| => steps[i].at)
  }

  /** At most one step sequence meets the promise. */
  lemma TimelineUnique(on: Vec, off: Vec, delays: seq<nat>, duration: nat, a: seq<Step>, b: seq<Step>)
    requires |delays| == 4
    requires IsTimeline(on, off, delays, duration, a) && IsTimeline(on, off, delays, duration, b)
    ensures a == b
  {
    var ta, tb := Times(a), Times(b);
    assert (set i | 0 <= i < |ta| :: ta[i]) == (set i | 0 <= i < |a| :: a[i].at);
    assert (set i | 0 <= i < |tb| :: tb[i]) == (set i | 0 <= i < |b| :: b[i].at);
    StrictlyIncreasingBySet(ta, tb);
    forall i | 0 <= i < |a| ensures a[i] == b[i] {
      assert a[i].at == ta[i] == tb[i] == b[i].at;
      SameInstantSameStep(on, off, delays, duration, a, b, i);
    }
  }

  /** Two steps that follow the windows and share their instant carry the same vector. */
  lemma SameInstantSameStep(on: Vec, off: Vec, delays: seq<nat>, duration: nat, a: seq<Step>, b: seq<Step>, i: nat)
    requires |delays| == 4
    requires ChannelsFollowWindows(on, off, delays, duration, a) && ChannelsFollowWindows(on, off, delays, duration, b)
    requires i < |a| && i < |b| && a[i].at == b[i].at
    ensures a[i] == b[i]
  {
    forall c | 0 <= c < 4 ensures a[i].volts[c] == b[i].volts[c] {
      var d := delays[c];
      assert a[i].volts[c] == if d <= a[i].at < d + duration then on[c] else off[c];
      assert b[i].volts[c] == if d <= b[i].at < d + duration then on[c] else off[c];
    }
    assert a[i].volts == b[i].volts;
  }

  /** Every order `np.argsort` may pick for tied event times yields the same timeline. */
  lemma TieOrderIrrelevant(on: Vec, off: Vec, delays: seq<nat>, duration: nat, order1: seq<nat>, order2: seq<nat>)
    requires |delays| == 4 && duration > 0
    requires IsArgSort(EventKeys(delays, duration), order1) && IsArgSort(EventKeys(delays, duration), order2)
    ensures EventIndices(order1) && EventIndices(order2)
    ensures Timeline(on, off, delays, duration, order1) == Timeline(on, off, delays, duration, order2)
  {
    TimelineCorrect(on, off, delays, duration, order1);
    TimelineCorrect(on, off, delays, duration, order2);
    TimelineUnique(on, off, delays, duration,
      Timeline(on, off, delays, duration, order1), Timeline(on, off, delays, duration, order2));
  }

  /**
   * A staggered start: four channels at 100 V, delays 0, 10, 0 and 20 ms,
   * 50 ms on. The two channels that start together share one step, and so do
   * the two that stop together.
   */
  const ExampleSteps: seq<Step> := [
    Step(0, [100, 0, 100, 0]), Step(10, [100, 100, 100, 0]), Step(20, [100, 100, 100, 100]),
    Step(50, [0, 100, 0, 100]), Step(60, [0, 0, 0, 100]), Step(70, [0, 0, 0, 0])]

  lemma ExampleTimes()
    ensures TimesAreChangeTimes([0, 10, 0, 20], 50, ExampleSteps)
  {
    ExampleStepTimes();
    ExampleChangeTimes();
  }

  /** The times of the example's steps, as a set. */
  lemma ExampleStepTimes()
    ensures (set i | 0 <= i < |ExampleSteps| :: ExampleSteps[i].at) == {0, 10, 20, 50, 60, 70}
  {
    var e := ExampleSteps;
    var s := set i | 0 <= i < |e| :: e[i].at;
    assert e[0].at in s && e[1].at in s && e[2].at in s && e[3].at in s && e[4].at in s && e[5].at in s;
  }

  /** The example's change times: the start, the three distinct delays and the three distinct stops. */
  lemma ExampleChangeTimes()
    ensures ChangeTimes([0, 10, 0, 20], 50) == {0, 10, 20, 50, 60, 70}
  {
    var delays: seq<nat> := [0, 10, 0, 20];
    var ons := set c | 0 <= c < 4 :: delays[c] as int;
    assert delays[0] in ons && delays[1] in ons && delays[3] in ons;
    assert ons == {0, 10, 20};
    var offs := set c | 0 <= c < 4 :: delays[c] + 50;
    assert delays[0] + 50 in offs && delays[1] + 50 in offs && delays[3] + 50 in offs;
    assert offs == {50, 60, 70};
  }

  lemma StaggeredStartExample(steps: seq<Step>)
    requires IsTimeline([100, 100, 100, 100], [0, 0, 0, 0], [0, 10, 0, 20], 50, steps)
    ensures steps == ExampleSteps
  {
    ExampleTimes();
    assert ChannelsFollowWindows([100, 100, 100, 100], [0, 0, 0, 0], [0, 10, 0, 20], 50, ExampleSteps);
    TimelineUnique([100, 100, 100, 100], [0, 0, 0, 0], [0, 10, 0, 20], 50, steps, ExampleSteps);
  }
}
