/** When the MCP servers of a starting terminal have settled: the segment that counts them leaves
    the footer, and has to stay away for a second, for a redraw can hide it for a read or two. */
module Settle {
  import opened Options

  /** What one read of the screen found: the time, and the counts of the segment if it is there. */
  datatype Sample = Sample(now: real, segment: Option<(nat, nat)>)

  datatype Mcp = Mcp(firstSeen: Option<real>, settled: Option<real>, counts: Option<(nat, nat)>)

  predicate Shown(samples: seq<Sample>, k: int) {
    0 <= k < |samples| && samples[k].segment.Some?
  }

  /** The segment is shown in none of the samples from i up to k. */
  predicate Hidden(samples: seq<Sample>, i: int, k: int) {
    forall j :: i <= j < k ==> !Shown(samples, j)
  }

  /** Sample i is the first without the segment after a sighting, and it has been away since. */
  predicate AwaySince(samples: seq<Sample>, i: int, k: int) {
    0 < i <= k < |samples| && Shown(samples, i - 1) && Hidden(samples, i, k + 1)
  }

  /** At sample k the segment has been away for a second, since sample i. */
  predicate Gone(samples: seq<Sample>, i: int, k: int) {
    AwaySince(samples, i, k) && i < k && samples[k].now - samples[i].now >= 1.0
  }

  /** At sample k no segment was ever shown, and the first frame is over three seconds old. */
  predicate GivesUp(samples: seq<Sample>, ready: real, k: int) {
    0 <= k < |samples| && Hidden(samples, 0, k + 1) && samples[k].now - ready > 3.0
  }

  ghost predicate Stops(samples: seq<Sample>, ready: real, k: int) {
    GivesUp(samples, ready, k) || exists i :: Gone(samples, i, k)
  }

  predicate FirstShown(samples: seq<Sample>, k: int) {
    Shown(samples, k) && Hidden(samples, 0, k)
  }

  predicate LastShown(samples: seq<Sample>, k: int, used: nat) {
    Shown(samples, k) && k < used && Hidden(samples, k + 1, used)
  }

  /** m reports the first `used` samples: the loop ended at the first of them that stops it, or ran
      out of samples. */
  ghost predicate Reports(samples: seq<Sample>, ready: real, m: Mcp, used: nat) {
    && used <= |samples|
    && (forall k :: 0 <= k < used - 1 ==> !Stops(samples, ready, k))
    && (used < |samples| ==> used > 0 && Stops(samples, ready, used - 1))
    && Sightings(samples, m, used)
    && SettledAt(samples, m.settled, used - 1)
  }

  /** The time is that of the sample the segment has been away since at sample k, for a second. */
  ghost predicate SettledAt(samples: seq<Sample>, settled: Option<real>, k: int) {
    match settled
    case None => forall i :: !Gone(samples, i, k)
    case Some(t) => exists i :: Gone(samples, i, k) && t == samples[i].now
  }

  /** The first time and the last counts among the samples used. */
  ghost predicate Sightings(samples: seq<Sample>, m: Mcp, used: nat) {
    && (m.firstSeen.None? ==> m.counts.None? && Hidden(samples, 0, used))
    && (m.firstSeen.Some? ==>
          && (exists k :: 0 <= k < used && FirstShown(samples, k) && m.firstSeen.value == samples[k].now)
          && (exists k :: LastShown(samples, k, used) && m.counts == samples[k].segment))
  }

  lemma ShownGoesOn(samples: seq<Sample>, ready: real, k: int)
    requires Shown(samples, k)
    ensures !Stops(samples, ready, k)
  {
  }

  lemma UnseenGoesOn(samples: seq<Sample>, ready: real, k: int)
    requires 0 <= k < |samples| && Hidden(samples, 0, k + 1) && samples[k].now - ready <= 3.0
    ensures !Stops(samples, ready, k)
  {
    forall i
      ensures !Gone(samples, i, k)
    {
      assert 0 < i <= k ==> !Shown(samples, i - 1);
    }
  }

  lemma ShortAbsenceGoesOn(samples: seq<Sample>, ready: real, i: int, k: int)
    requires AwaySince(samples, i, k) && (i == k || samples[k].now - samples[i].now < 1.0)
    ensures !Stops(samples, ready, k)
  {
    AwayOnce(samples, i, k);
    assert Shown(samples, i - 1);
  }

  ghost predicate NoneStops(samples: seq<Sample>, ready: real, used: nat) {
    forall k :: 0 <= k < used ==> !Stops(samples, ready, k)
  }

  lemma NorThisOne(samples: seq<Sample>, ready: real, used: nat)
    requires NoneStops(samples, ready, used) && !Stops(samples, ready, used)
    ensures NoneStops(samples, ready, used + 1)
  {
  }

  /** What the loop keeps: nothing has stopped it, and it knows since when the segment is away. */
  ghost predicate Going(samples: seq<Sample>, ready: real, m: Mcp, used: nat, absentSince: Option<real>, since: int) {
    && used <= |samples|
    && m.settled.None? && Sightings(samples, m, used)
    && NoneStops(samples, ready, used)
    && (absentSince.Some? ==>
          AwaySince(samples, since, used - 1) && absentSince.value == samples[since].now)
    && (absentSince.None? ==> m.firstSeen.None? || Shown(samples, used - 1))
    && (m.firstSeen.None? ==> absentSince.None?)
  }

  lemma GoesOnShown(samples: seq<Sample>, ready: real, m: Mcp, used: nat, absentSince: Option<real>, since: int)
    requires Going(samples, ready, m, used, absentSince, since) && Shown(samples, used)
    ensures var seen := if m.firstSeen.None? then Some(samples[used].now) else m.firstSeen;
            Going(samples, ready, Mcp(seen, None, samples[used].segment), used + 1, None, since)
  {
    ShownGoesOn(samples, ready, used);
    NorThisOne(samples, ready, used);
    assert LastShown(samples, used, used + 1);
    if m.firstSeen.None? {
      assert FirstShown(samples, used);
    } else {
      var k :| 0 <= k < used && FirstShown(samples, k) && m.firstSeen.value == samples[k].now;
    }
  }

  lemma GoesOnUnseen(samples: seq<Sample>, ready: real, m: Mcp, used: nat, since: int)
    requires Going(samples, ready, m, used, None, since) && used < |samples| && !Shown(samples, used)
    requires m.firstSeen.None? && samples[used].now - ready <= 3.0
    ensures Going(samples, ready, m, used + 1, None, since)
  {
    StaysLast(samples, m, used);
    UnseenGoesOn(samples, ready, used);
    NorThisOne(samples, ready, used);
  }

  lemma StaysAway(samples: seq<Sample>, i: int, used: nat)
    requires used < |samples| && !Shown(samples, used)
    requires AwaySince(samples, i, used - 1) || (i == used && Shown(samples, used - 1))
    ensures AwaySince(samples, i, used)
  {
  }

  lemma GoesOnAway(samples: seq<Sample>, ready: real, m: Mcp, used: nat, absentSince: Option<real>, since: int)
    requires Going(samples, ready, m, used, absentSince, since) && used < |samples| && !Shown(samples, used)
    requires m.firstSeen.Some?
    requires absentSince.Some? ==> samples[used].now - absentSince.value < 1.0
    ensures if absentSince.None? then Going(samples, ready, m, used + 1, Some(samples[used].now), used)
            else Going(samples, ready, m, used + 1, absentSince, since)
  {
    var i := if absentSince.None? then used else since;
    StaysAway(samples, i, used);
    StaysLast(samples, m, used);
    NotLongAway(samples, ready, i, used);
  }

  lemma NotLongAway(samples: seq<Sample>, ready: real, i: int, used: nat)
    requires NoneStops(samples, ready, used) && AwaySince(samples, i, used)
    requires i == used || samples[used].now - samples[i].now < 1.0
    ensures NoneStops(samples, ready, used + 1)
  {
    ShortAbsenceGoesOn(samples, ready, i, used);
    NorThisOne(samples, ready, used);
  }

  lemma EndsGone(samples: seq<Sample>, ready: real, m: Mcp, used: nat, absentSince: Option<real>, since: int)
    requires Going(samples, ready, m, used, absentSince, since) && used < |samples| && !Shown(samples, used)
    requires absentSince.Some? && samples[used].now - absentSince.value >= 1.0
    ensures Reports(samples, ready, m.(settled := absentSince), used + 1)
  {
    StaysLast(samples, m, used);
    assert Gone(samples, since, used);
  }

  lemma EndsUnseen(samples: seq<Sample>, ready: real, m: Mcp, used: nat, since: int)
    requires Going(samples, ready, m, used, None, since) && used < |samples| && !Shown(samples, used)
    requires m.firstSeen.None? && samples[used].now - ready > 3.0
    ensures Reports(samples, ready, m, used + 1)
  {
    StaysLast(samples, m, used);
    assert GivesUp(samples, ready, used);
    forall i
      ensures !Gone(samples, i, used)
    {
      assert 0 < i <= used ==> !Shown(samples, i - 1);
    }
  }

  lemma EndsWithTheSamples(samples: seq<Sample>, ready: real, m: Mcp, absentSince: Option<real>, since: int)
    requires Going(samples, ready, m, |samples|, absentSince, since)
    ensures Reports(samples, ready, m, |samples|)
  {
    assert samples != [] ==> !Stops(samples, ready, |samples| - 1);
  }

  /** The body of the loop: one sample; stop if it is the last. */
  method TakeSample(samples: seq<Sample>, ready: real, m: Mcp, used: nat, absentSince: Option<real>, ghost since: int)
    returns (m': Mcp, absentSince': Option<real>, ghost since': int, stop: bool)
    requires Going(samples, ready, m, used, absentSince, since) && used < |samples|
    ensures if stop then Reports(samples, ready, m', used + 1)
            else Going(samples, ready, m', used + 1, absentSince', since')
  {
    m', absentSince', since', stop := m, absentSince, since, false;
    var now := samples[used].now;
    if samples[used].segment.Some? {
      GoesOnShown(samples, ready, m, used, absentSince, since);
      if m.firstSeen.None? {
        m' := m'.(firstSeen := Some(now));
      }
      m' := m'.(counts := samples[used].segment);
      absentSince' := None;
    } else if m.firstSeen.Some? {
      if absentSince.None? {
        GoesOnAway(samples, ready, m, used, absentSince, since);
        absentSince', since' := Some(now), used;
      } else if now - absentSince.value >= 1.0 {
        EndsGone(samples, ready, m, used, absentSince, since);
        m', stop := m.(settled := absentSince), true;
      } else {
        GoesOnAway(samples, ready, m, used, absentSince, since);
      }
    } else if now - ready > 3.0 {
      EndsUnseen(samples, ready, m, used, since);
      stop := true;
    } else {
      GoesOnUnseen(samples, ready, m, used, since);
    }
  }

  lemma GoesOnFromStart(samples: seq<Sample>, ready: real)
    ensures Going(samples, ready, Mcp(None, None, None), 0, None, 0)
  {
  }

  method SettleLoop(samples: seq<Sample>, ready: real) returns (m: Mcp, used: nat)
    ensures Reports(samples, ready, m, used)
  {
    m := Mcp(None, None, None);
    used := 0;
    var absentSince: Option<real>, stop := None, false;
    ghost var since := 0;
    GoesOnFromStart(samples, ready);
    while used < |samples|
      invariant Going(samples, ready, m, used, absentSince, since)
    {
      m, absentSince, since, stop := TakeSample(samples, ready, m, used, absentSince, since);
      used := used + 1;
      if stop {
        return;
      }
    }
    EndsWithTheSamples(samples, ready, m, absentSince, since);
  }

  lemma AwayOnce(samples: seq<Sample>, i: int, k: int)
    requires AwaySince(samples, i, k)
    ensures forall j :: AwaySince(samples, j, k) ==> j == i
  {
    forall j | AwaySince(samples, j, k)
      ensures j == i
    {
      assert Shown(samples, j - 1) && Shown(samples, i - 1);
    }
  }

  lemma StaysLast(samples: seq<Sample>, m: Mcp, used: nat)
    requires Sightings(samples, m, used) && used < |samples| && !Shown(samples, used)
    ensures Sightings(samples, m, used + 1)
  {
    if m.firstSeen.Some? {
      var k :| LastShown(samples, k, used) && m.counts == samples[k].segment;
      assert LastShown(samples, k, used + 1);
    }
  }

  /** There is one report, so the loop's is it. */
  lemma OneReport(samples: seq<Sample>, ready: real, m: Mcp, used: nat, m': Mcp, used': nat)
    requires Reports(samples, ready, m, used) && Reports(samples, ready, m', used')
    ensures m == m' && used == used'
  {
    assert used < used' ==> !Stops(samples, ready, used - 1);
    assert used' < used ==> !Stops(samples, ready, used' - 1);
    if m.settled.Some? && m'.settled.Some? {
      var i :| Gone(samples, i, used - 1) && m.settled.value == samples[i].now;
      AwayOnce(samples, i, used - 1);
    }
    OneSighting(samples, m, m', used);
  }

  lemma OneSighting(samples: seq<Sample>, m: Mcp, m': Mcp, used: nat)
    requires Sightings(samples, m, used) && Sightings(samples, m', used) && used <= |samples|
    ensures m.firstSeen == m'.firstSeen && m.counts == m'.counts
  {
    if m.firstSeen.Some? && m'.firstSeen.Some? {
      var a :| 0 <= a < used && FirstShown(samples, a) && m.firstSeen.value == samples[a].now;
      var b :| 0 <= b < used && FirstShown(samples, b) && m'.firstSeen.value == samples[b].now;
      assert a == b by {
        assert Shown(samples, a) && Shown(samples, b);
      }
      var c :| LastShown(samples, c, used) && m.counts == samples[c].segment;
      var d :| LastShown(samples, d, used) && m'.counts == samples[d].segment;
      assert c == d by {
        assert Shown(samples, c) && Shown(samples, d);
      }
    }
  }

  /** The clock does not run backwards. */
  predicate Ordered(samples: seq<Sample>) {
    forall i, j :: 0 <= i <= j < |samples| ==> samples[i].now <= samples[j].now
  }

  predicate StrictlyOrdered(samples: seq<Sample>) {
    forall i, j :: 0 <= i < j < |samples| ==> samples[i].now < samples[j].now
  }

  /** The clock shows one time in all the samples from i to j. */
  predicate Still(samples: seq<Sample>, i: int, j: int) {
    forall k :: 0 <= i <= k <= j < |samples| ==> samples[k].now == samples[i].now
  }

  /** What settled was seen in an earlier sample, and settled a second before the report. The two
      times are equal exactly if the clock stood still in every sample from the first sighting to
      the first without the segment; with a clock that moves from sample to sample they differ. */
  lemma SeenBeforeSettled(samples: seq<Sample>, ready: real, m: Mcp, used: nat) returns (seen: nat, away: nat)
    requires Reports(samples, ready, m, used) && Ordered(samples) && m.settled.Some?
    ensures FirstShown(samples, seen) && Gone(samples, away, used - 1) && seen < away
    ensures m.firstSeen == Some(samples[seen].now) && m.settled == Some(samples[away].now)
    ensures m.firstSeen.value <= m.settled.value <= samples[used - 1].now - 1.0
    ensures m.firstSeen == m.settled <==> Still(samples, seen, away)
    ensures StrictlyOrdered(samples) ==> m.firstSeen.value < m.settled.value
  {
    var i :| Gone(samples, i, used - 1) && m.settled.value == samples[i].now;
    assert Shown(samples, i - 1);
    var k :| 0 <= k < used && FirstShown(samples, k) && m.firstSeen.value == samples[k].now;
    assert k < i by {
      assert !(i <= k < used) || !Shown(samples, k);
    }
    seen, away := k, i;
    assert Still(samples, k, i) ==> samples[i].now == samples[k].now;
  }

  /** A clock that stands still makes the two times equal. */
  lemma StillClock()
    ensures var samples := [Sample(0.0, Some((1, 2))), Sample(0.0, None), Sample(1.0, None)];
            Ordered(samples) && Reports(samples, 0.0, Mcp(Some(0.0), Some(0.0), Some((1, 2))), 3)
  {
    var samples := [Sample(0.0, Some((1, 2))), Sample(0.0, None), Sample(1.0, None)];
    assert Gone(samples, 1, 2);
    assert FirstShown(samples, 0) && LastShown(samples, 0, 3);
    assert AwaySince(samples, 1, 1);
    AwayOnce(samples, 1, 1);
    assert Shown(samples, 0);
  }

  /** What is on the screen after the loop stopped changes nothing in its report. */
  lemma LaterSamplesChangeNothing(samples: seq<Sample>, more: seq<Sample>, ready: real, m: Mcp, used: nat)
    requires Reports(samples, ready, m, used)
    requires used > 0 && Stops(samples, ready, used - 1)
    ensures Reports(samples + more, ready, m, used)
  {
    var all := samples + more;
    forall k | 0 <= k < used - 1
      ensures !Stops(all, ready, k)
    {
      SameStops(samples, more, ready, k, None);
    }
    SameStops(samples, more, ready, used - 1, m.settled);
    if m.firstSeen.Some? {
      var k :| 0 <= k < used && FirstShown(samples, k) && m.firstSeen.value == samples[k].now;
      SameHidden(samples, more, 0, k);
      assert FirstShown(all, k);
      var c :| LastShown(samples, c, used) && m.counts == samples[c].segment;
      SameHidden(samples, more, c + 1, used);
      assert LastShown(all, c, used);
    } else {
      SameHidden(samples, more, 0, used);
    }
  }

  lemma SameStops(samples: seq<Sample>, more: seq<Sample>, ready: real, k: int, settled: Option<real>)
    requires 0 <= k < |samples|
    ensures Stops(samples + more, ready, k) <==> Stops(samples, ready, k)
    ensures SettledAt(samples + more, settled, k) <==> SettledAt(samples, settled, k)
  {
    var all := samples + more;
    forall i
      ensures Gone(all, i, k) <==> Gone(samples, i, k)
    {
      SameHidden(samples, more, i, k + 1);
    }
    SameHidden(samples, more, 0, k + 1);
  }

  lemma SameHidden(samples: seq<Sample>, more: seq<Sample>, i: int, k: int)
    requires k <= |samples|
    ensures Hidden(samples + more, i, k) <==> Hidden(samples, i, k)
  {
    forall j | i <= j < k
      ensures Shown(samples + more, j) <==> Shown(samples, j)
    {
    }
  }
}
