/**
 * The candle feed of the app (App.jsx `fetchData`, `refreshData`, `fetchMoreData`): raw history
 * records are normalised (seconds timestamps, price fallbacks), then merged into one list keyed by
 * time, where a later record replaces an earlier one with the same time, and sorted by time.
 */
module CandleFeed {
  import opened Series

  /**
   * One record of the history response. `time` is `None` for a null time; a price or volume is
   * `None` when it is not a finite number.
   */
  datatype RawCandle = RawCandle(time: Option<real>, open: Option<real>, high: Option<real>, low: Option<real>,
                                 close: Option<real>, volume: Option<real>)

  /** Above this a timestamp is taken to be in milliseconds. */
  const MillisecondThreshold: real := 100000000000.0

  // ---------------------------------------------------------------------------
  // Normalising one record

  /** `Number(d.time)`: a null time reads as 0. */
  function NumberOf(t: Option<real>): real
  {
    t.GetOr(0.0)
  }

  /** Milliseconds become whole seconds `floor(t / 1000)`; anything else is floored. */
  function NormaliseTime(t: real): (s: int)
    ensures t > MillisecondThreshold ==> s as real <= t / 1000.0 < s as real + 1.0
    ensures t <= MillisecondThreshold ==> s as real <= t < s as real + 1.0
  {
    if t > MillisecondThreshold then (t / 1000.0).Floor else t.Floor
  }

  /** `isValidNum(x) ? x : fallback` */
  function OrElse(x: Option<real>, fallback: Option<real>): Option<real>
  {
    if x.Some? then x else fallback
  }

  /**
   * The normalised candle of a record, or `None` when it has neither a finite close nor a finite
   * open (the `isValidNum(close)` filter). Open, high and low fall back to the close, the close to
   * the open.
   */
  function Normalise(r: RawCandle): (c: Option<Candle>)
    ensures c.Some? <==> r.close.Some? || r.open.Some?
    ensures c.Some? ==> c.value.time == NormaliseTime(NumberOf(r.time)) && c.value.volume == r.volume
    ensures c.Some? ==> c.value.open.Some? && c.value.close.Some?
  {
    var close := OrElse(r.close, r.open);
    if close.None? then None
    else Some(Candle(NormaliseTime(NumberOf(r.time)), OrElse(r.open, r.close), OrElse(r.high, r.close),
                     OrElse(r.low, r.close), close, r.volume))
  }

  /** The normalised candles of a batch, the dropped records left out, in response order. */
  function NormaliseAll(raw: seq<RawCandle>): (cs: seq<Candle>)
    ensures |cs| <= |raw|
    ensures forall c :: c in cs ==> c.open.Some? && c.close.Some?
  {
    if |raw| == 0 then []
    else
      var r := raw[|raw| - 1];
      NormaliseAll(raw[..|raw| - 1]) + (if Normalise(r).Some? then [Normalise(r).value] else [])
  }

  /** `fetchData` first drops the records with a null time. */
  function WithTime(raw: seq<RawCandle>): (rs: seq<RawCandle>)
    ensures |rs| <= |raw|
    ensures forall r :: r in rs ==> r.time.Some?
  {
    if |raw| == 0 then []
    else WithTime(raw[..|raw| - 1]) + (if raw[|raw| - 1].time.Some? then [raw[|raw| - 1]] else [])
  }

  // ---------------------------------------------------------------------------
  // Merging by time

  /** `new Map(candles.map(d => [d.time, d]))`: each time mapped to the last candle with that time. */
  function LastByTime(cs: seq<Candle>): (m: map<int, Candle>)
    ensures forall t :: t in m ==> m[t].time == t
    ensures |cs| > 0 ==> cs[|cs| - 1].time in m && m[cs[|cs| - 1].time] == cs[|cs| - 1]
  {
    if |cs| == 0 then map[]
    else LastByTime(cs[..|cs| - 1])[cs[|cs| - 1].time := cs[|cs| - 1]]
  }

  /** Times strictly increase along the list, so no time occurs twice. */
  predicate SortedUnique(cs: seq<Candle>)
  {
    forall i, j :: 0 <= i < j < |cs| ==> cs[i].time < cs[j].time
  }

  /** Puts c into a time-sorted list: before the first later candle, or in place of one with its time. */
  function Upsert(s: seq<Candle>, c: Candle): (r: seq<Candle>)
    ensures c in r && |r| <= |s| + 1
    ensures forall x :: x in r ==> x == c || x in s
  {
    if |s| == 0 then [c]
    else if c.time < s[0].time then [c] + s
    else if c.time == s[0].time then [c] + s[1..]
    else [s[0]] + Upsert(s[1..], c)
  }

  /** The map's values sorted by time: every candle upserted in turn. */
  function Dedup(cs: seq<Candle>): (r: seq<Candle>)
    ensures |r| <= |cs|
    ensures forall x :: x in r ==> x in cs
  {
    if |cs| == 0 then [] else Upsert(Dedup(cs[..|cs| - 1]), cs[|cs| - 1])
  }

  function TimeSet(cs: seq<Candle>): set<int>
  {
    set i | 0 <= i < |cs| :: cs[i].time
  }

  /** What `fetchData` stores. */
  function Fetched(raw: seq<RawCandle>): (r: seq<Candle>)
    ensures SortedUnique(r)
    ensures forall x :: x in r ==> x.open.Some? && x.close.Some?
  {
    var cs := NormaliseAll(WithTime(raw));
    DedupIsLastByTime(cs);
    Dedup(cs)
  }

  /** What `refreshData` stores: the latest candles after the loaded ones, so latest ones win. */
  function Refreshed(prev: seq<Candle>, raw: seq<RawCandle>): (r: seq<Candle>)
    ensures SortedUnique(r)
    ensures TimeSet(r) == TimeSet(prev) + TimeSet(NormaliseAll(raw))
    ensures forall x :: x in r ==> x in prev || x in NormaliseAll(raw)
  {
    var cs := prev + NormaliseAll(raw);
    DedupIsLastByTime(cs);
    DedupTimes(cs);
    TimeSetAppend(prev, NormaliseAll(raw));
    Dedup(cs)
  }

  /** What `fetchMoreData` stores: the older candles before the loaded ones, so loaded ones win. */
  function BackFilled(prev: seq<Candle>, raw: seq<RawCandle>): (r: seq<Candle>)
    ensures SortedUnique(r)
    ensures TimeSet(r) == TimeSet(NormaliseAll(raw)) + TimeSet(prev)
    ensures forall x :: x in r ==> x in prev || x in NormaliseAll(raw)
  {
    var cs := NormaliseAll(raw) + prev;
    DedupIsLastByTime(cs);
    DedupTimes(cs);
    TimeSetAppend(NormaliseAll(raw), prev);
    Dedup(cs)
  }

  // ---------------------------------------------------------------------------
  // Properties of normalisation

  /** A record is kept exactly when its close or its open is finite, and a kept candle has finite open and close. */
  lemma NormaliseKeeps(r: RawCandle)
    ensures Normalise(r).Some? <==> r.close.Some? || r.open.Some?
    ensures Normalise(r).Some? ==> Normalise(r).value.open.Some? && Normalise(r).value.close.Some?
  {
  }

  /** A record with every price finite keeps its prices and volume; only the time is normalised. */
  lemma NormaliseCompleteRecord(r: RawCandle)
    requires r.open.Some? && r.high.Some? && r.low.Some? && r.close.Some?
    ensures Normalise(r) == Some(Candle(NormaliseTime(NumberOf(r.time)), r.open, r.high, r.low, r.close, r.volume))
  {
  }

  /** Whole seconds below the threshold are left as they are; the same instant in milliseconds maps to them too. */
  lemma SecondsAndMilliseconds(s: int)
    requires 100000000 < s <= 100000000000
    ensures NormaliseTime(s as real) == s
    ensures NormaliseTime(s as real * 1000.0) == s
  {
  }

  /** Every normalised candle comes from a kept record of the batch, so every one has a finite close. */
  lemma {:induction false} NormaliseAllMembers(raw: seq<RawCandle>, c: Candle) returns (k: int)
    requires c in NormaliseAll(raw)
    ensures 0 <= k < |raw| && Normalise(raw[k]) == Some(c)
  {
    var r := raw[|raw| - 1];
    if c in NormaliseAll(raw[..|raw| - 1]) {
      k := NormaliseAllMembers(raw[..|raw| - 1], c);
    } else {
      k := |raw| - 1;
    }
  }

  /** `fetchData` drops exactly the records with a null time. */
  lemma {:induction false} WithTimeMembers(raw: seq<RawCandle>)
    ensures forall r :: r in WithTime(raw) <==> r in raw && r.time.Some?
  {
    if |raw| > 0 {
      WithTimeMembers(raw[..|raw| - 1]);
      assert raw == raw[..|raw| - 1] + [raw[|raw| - 1]];
    }
  }

  // ---------------------------------------------------------------------------
  // Properties of the merge

  /** Upserting into a sorted list keeps it sorted and replaces exactly the candle with c's time. */
  lemma UpsertSpec(s: seq<Candle>, c: Candle)
    requires SortedUnique(s)
    ensures SortedUnique(Upsert(s, c))
    ensures forall x :: x in Upsert(s, c) <==> x == c || (x in s && x.time != c.time)
    ensures forall x :: x in Upsert(s, c) ==> x.time == c.time || x.time in TimeSet(s)
  {
    UpsertMembers(s, c);
    UpsertSorted(s, c);
    forall x | x in s
      ensures x.time in TimeSet(s)
    {
      var i :| 0 <= i < |s| && s[i] == x;
    }
  }

  lemma {:induction false} UpsertMembers(s: seq<Candle>, c: Candle)
    requires SortedUnique(s)
    ensures forall x :: x in Upsert(s, c) <==> x == c || (x in s && x.time != c.time)
  {
    if |s| > 0 {
      assert s == [s[0]] + s[1..];
      if c.time > s[0].time {
        UpsertMembers(s[1..], c);
      } else if c.time == s[0].time {
        forall x | x in s[1..]
          ensures x.time != c.time
        {
          var i :| 0 <= i < |s[1..]| && s[1..][i] == x;
          assert s[i + 1] == x;
        }
      } else {
        forall x | x in s
          ensures x.time != c.time
        {
          var i :| 0 <= i < |s| && s[i] == x;
          assert i == 0 || s[0].time < s[i].time;
        }
      }
    }
  }

  lemma {:induction false} UpsertSorted(s: seq<Candle>, c: Candle)
    requires SortedUnique(s)
    ensures SortedUnique(Upsert(s, c))
  {
    if |s| > 0 {
      TailLater(s);
      if c.time > s[0].time {
        UpsertSorted(s[1..], c);
        UpsertMembers(s[1..], c);
        ConsSorted(s[0], Upsert(s[1..], c));
      } else if c.time == s[0].time {
        ConsSorted(c, s[1..]);
      } else {
        ConsSorted(c, s);
      }
    }
  }

  /** The tail of a sorted list is sorted and later than its head. */
  lemma TailLater(s: seq<Candle>)
    requires SortedUnique(s) && |s| > 0
    ensures SortedUnique(s[1..])
    ensures forall y :: y in s[1..] ==> s[0].time < y.time
    ensures forall y :: y in s ==> s[0].time <= y.time
  {
    forall y | y in s[1..]
      ensures s[0].time < y.time
    {
      var m :| 0 <= m < |s[1..]| && s[1..][m] == y;
      assert s[m + 1] == y;
    }
    forall y | y in s
      ensures s[0].time <= y.time
    {
      var m :| 0 <= m < |s| && s[m] == y;
    }
  }

  /** A candle earlier than everything in a sorted list can go in front of it. */
  lemma ConsSorted(x: Candle, u: seq<Candle>)
    requires SortedUnique(u)
    requires forall y :: y in u ==> x.time < y.time
    ensures SortedUnique([x] + u)
  {
    var v := [x] + u;
    forall i, j | 0 <= i < j < |v|
      ensures v[i].time < v[j].time
    {
      assert v[j] == u[j - 1];
      if i == 0 {
        assert u[j - 1] in u;
      } else {
        assert v[i] == u[i - 1];
      }
    }
  }

  /**
   * The merge is the map `new Map(...)` builds, sorted: times strictly increase, and a candle is in
   * the result exactly when it is the last candle with its time.
   */
  lemma {:induction false} DedupIsLastByTime(cs: seq<Candle>)
    ensures SortedUnique(Dedup(cs))
    ensures forall x :: x in Dedup(cs) <==> x.time in LastByTime(cs) && LastByTime(cs)[x.time] == x
  {
    if |cs| > 0 {
      DedupIsLastByTime(cs[..|cs| - 1]);
      UpsertSpec(Dedup(cs[..|cs| - 1]), cs[|cs| - 1]);
    }
  }

  /** The merged list has exactly the times of its input. */
  lemma {:induction false} DedupTimes(cs: seq<Candle>)
    ensures LastByTime(cs).Keys == TimeSet(cs)
    ensures TimeSet(Dedup(cs)) == TimeSet(cs)
  {
    DedupIsLastByTime(cs);
    KeysAreTimes(cs);
    forall t | t in TimeSet(cs)
      ensures t in TimeSet(Dedup(cs))
    {
      var x := LastByTime(cs)[t];
      LastByTimeTime(cs, t);
      assert x in Dedup(cs);
    }
    forall t | t in TimeSet(Dedup(cs))
      ensures t in TimeSet(cs)
    {
      var i :| 0 <= i < |Dedup(cs)| && Dedup(cs)[i].time == t;
      assert Dedup(cs)[i] in Dedup(cs);
    }
  }

  lemma {:induction false} KeysAreTimes(cs: seq<Candle>)
    ensures LastByTime(cs).Keys == TimeSet(cs)
  {
    if |cs| > 0 {
      KeysAreTimes(cs[..|cs| - 1]);
      assert TimeSet(cs) == TimeSet(cs[..|cs| - 1]) + {cs[|cs| - 1].time};
    }
  }

  /** The candle the map holds for time t has time t. */
  lemma {:induction false} LastByTimeTime(cs: seq<Candle>, t: int)
    requires t in LastByTime(cs)
    ensures LastByTime(cs)[t].time == t
  {
    if t != cs[|cs| - 1].time {
      LastByTimeTime(cs[..|cs| - 1], t);
    }
  }

  /** Merging a + b is the map of a overridden by the map of b: the later list wins every shared time. */
  lemma {:induction false} LastByTimeAppend(a: seq<Candle>, b: seq<Candle>)
    ensures LastByTime(a + b) == LastByTime(a) + LastByTime(b)
  {
    if |b| == 0 {
      assert a + b == a;
    } else {
      LastByTimeAppend(a, b[..|b| - 1]);
      assert (a + b)[..|a + b| - 1] == a + b[..|b| - 1];
    }
  }

  /** In a list whose times are unique every candle is the last with its time. */
  lemma {:induction false} UniqueIsOwnLast(cs: seq<Candle>, x: Candle)
    requires SortedUnique(cs) && x in cs
    ensures x.time in LastByTime(cs) && LastByTime(cs)[x.time] == x
  {
    var last := cs[|cs| - 1];
    if x != last {
      assert cs == cs[..|cs| - 1] + [last];
      UniqueIsOwnLast(cs[..|cs| - 1], x);
      var i :| 0 <= i < |cs| - 1 && cs[i] == x;
      assert x.time < last.time;
    }
  }

  /** Merging an already merged list changes nothing. */
  lemma {:induction false} DedupOfSorted(cs: seq<Candle>)
    requires SortedUnique(cs)
    ensures Dedup(cs) == cs
  {
    if |cs| > 0 {
      var init, last := cs[..|cs| - 1], cs[|cs| - 1];
      assert SortedUnique(init);
      DedupOfSorted(init);
      assert forall i :: 0 <= i < |init| ==> init[i].time < last.time;
      AppendLater(init, last);
      assert Dedup(cs) == Upsert(init, last) == init + [last];
      assert init + [last] == cs;
    }
  }

  lemma {:induction false} AppendLater(s: seq<Candle>, c: Candle)
    requires forall i :: 0 <= i < |s| ==> s[i].time < c.time
    ensures Upsert(s, c) == s + [c]
  {
    if |s| > 0 {
      AppendLater(s[1..], c);
      assert s == [s[0]] + s[1..];
    }
  }

  // ---------------------------------------------------------------------------
  // The three call sites

  /** `fetchData` leaves unique ascending times, and a repeated time keeps the last record in the response. */
  lemma FetchedOrder(raw: seq<RawCandle>)
    ensures SortedUnique(Fetched(raw))
    ensures forall x :: x in Fetched(raw) <==>
      x.time in LastByTime(NormaliseAll(WithTime(raw))) && LastByTime(NormaliseAll(WithTime(raw)))[x.time] == x
  {
    DedupIsLastByTime(NormaliseAll(WithTime(raw)));
  }

  /** `fetchData` stores only candles with a finite close, normalised from records with a time. */
  lemma FetchedCandlesValid(raw: seq<RawCandle>, x: Candle) returns (r: RawCandle)
    requires x in Fetched(raw)
    ensures r in raw && r.time.Some? && Normalise(r) == Some(x) && x.close.Some?
  {
    var batch := NormaliseAll(WithTime(raw));
    DedupIsLastByTime(batch);
    DedupTimes(batch);
    assert x.time in TimeSet(batch);
    var i :| 0 <= i < |batch| && batch[i].time == x.time;
    LastByTimeTime(batch, x.time);
    LastIsMember(batch, x.time);
    var k := NormaliseAllMembers(WithTime(raw), x);
    r := WithTime(raw)[k];
    WithTimeMembers(raw);
  }

  /** The candle a map holds is one of the list's candles. */
  lemma {:induction false} LastIsMember(cs: seq<Candle>, t: int)
    requires t in LastByTime(cs)
    ensures LastByTime(cs)[t] in cs
  {
    if t != cs[|cs| - 1].time {
      LastIsMember(cs[..|cs| - 1], t);
    }
  }

  /**
   * A refresh keeps every loaded time, gives unique ascending times, and a freshly fetched candle
   * replaces a loaded one with its time.
   */
  lemma RefreshMerge(prev: seq<Candle>, raw: seq<RawCandle>)
    ensures SortedUnique(Refreshed(prev, raw))
    ensures TimeSet(prev) <= TimeSet(Refreshed(prev, raw))
    ensures forall x :: x in NormaliseAll(raw) && x.time in LastByTime(NormaliseAll(raw)) && LastByTime(NormaliseAll(raw))[x.time] == x ==>
      x in Refreshed(prev, raw)
  {
    var latest := NormaliseAll(raw);
    DedupIsLastByTime(prev + latest);
    DedupTimes(prev + latest);
    LastByTimeAppend(prev, latest);
    KeysAreTimes(latest);
    assert TimeSet(prev + latest) == TimeSet(prev) + TimeSet(latest) by {
      TimeSetAppend(prev, latest);
    }
  }

  /**
   * A back-fill keeps every loaded candle, gives unique ascending times, and drops an older candle
   * whose time is already loaded.
   */
  lemma BackFillMerge(prev: seq<Candle>, raw: seq<RawCandle>)
    requires SortedUnique(prev)
    ensures SortedUnique(BackFilled(prev, raw))
    ensures forall x :: x in prev ==> x in BackFilled(prev, raw)
    ensures forall x :: x in BackFilled(prev, raw) && x !in prev ==> x in NormaliseAll(raw) && x.time !in TimeSet(prev)
  {
    var older := NormaliseAll(raw);
    DedupIsLastByTime(older + prev);
    LastByTimeAppend(older, prev);
    KeysAreTimes(prev);
    forall x | x in prev
      ensures x in BackFilled(prev, raw)
    {
      UniqueIsOwnLast(prev, x);
    }
    forall x | x in BackFilled(prev, raw) && x !in prev
      ensures x in older && x.time !in TimeSet(prev)
    {
      if x.time in LastByTime(prev) {
        LastIsMember(prev, x.time);
      } else {
        LastIsMember(older, x.time);
      }
    }
  }

  lemma TimeSetAppend(a: seq<Candle>, b: seq<Candle>)
    ensures TimeSet(a + b) == TimeSet(a) + TimeSet(b)
  {
    forall t | t in TimeSet(a + b)
      ensures t in TimeSet(a) + TimeSet(b)
    {
      var i :| 0 <= i < |a + b| && (a + b)[i].time == t;
      if i < |a| {
        assert a[i].time == t;
        assert t in TimeSet(a);
      } else {
        assert b[i - |a|].time == t;
        assert t in TimeSet(b);
      }
    }
    forall t | t in TimeSet(b)
      ensures t in TimeSet(a + b)
    {
      var i :| 0 <= i < |b| && b[i].time == t;
      assert (a + b)[|a| + i].time == t;
    }
    forall t | t in TimeSet(a)
      ensures t in TimeSet(a + b)
    {
      var i :| 0 <= i < |a| && a[i].time == t;
      assert (a + b)[i].time == t;
    }
  }
}
