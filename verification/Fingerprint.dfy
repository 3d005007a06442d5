/** The fingerprint of the scheduler's settings: a daemon is rebuilt when it changes. */
module Fingerprint {
  import opened Options
  import opened Text

  /** The settings a rebuilt daemon would read; dir is SchedulerUserDir. */
  datatype Scheduler = Scheduler(enabled: bool, dir: string, timeout: string, maxQueue: int, retainSessions: int)

  const NUL := 0 as char

  function Fields(s: Scheduler): seq<string> {
    [FormatBool(s.enabled), s.dir, s.timeout, Itoa(s.maxQueue), Itoa(s.retainSessions)]
  }

  function SchedulerFingerprint(c: Option<Scheduler>): string {
    match c
    case None => ""
    case Some(s) => Join(Fields(s), [NUL])
  }

  /** The directory is made of a path of the operating system, which holds no NUL. */
  predicate PlainDir(c: Option<Scheduler>) {
    c.Some? ==> NUL !in c.value.dir
  }

  /** Of any pieces, what their join gives back when split: the pieces, unless one is broken up. */
  function Pieces(parts: seq<string>): seq<string> {
    if parts == [] then [] else Split(parts[0], NUL) + Pieces(parts[1..])
  }

  lemma {:induction false} SplitJoined(parts: seq<string>)
    requires parts != []
    ensures Split(Join(parts, [NUL]), NUL) == Pieces(parts)
  {
    if |parts| == 1 {
      assert Pieces(parts[1..]) == [];
    } else {
      SplitJoined(parts[1..]);
      SplitConcat(parts[0], Join(parts[1..], [NUL]), NUL);
    }
  }

  lemma {:induction false} SplitSize(s: string)
    ensures NUL !in s <==> |Split(s, NUL)| == 1
    ensures NUL !in s ==> Split(s, NUL) == [s]
  {
    if s != "" {
      SplitSize(s[1..]);
      assert s == [s[0]] + s[1..];
    }
  }

  /** The numbers and the boolean print without a NUL, so only the two strings can be broken up. */
  lemma FingerprintPieces(s: Scheduler)
    ensures Split(SchedulerFingerprint(Some(s)), NUL)
         == [FormatBool(s.enabled)] + Split(s.dir, NUL) + Split(s.timeout, NUL)
            + [Itoa(s.maxQueue), Itoa(s.retainSessions)]
  {
    var e, q, r := FormatBool(s.enabled), Itoa(s.maxQueue), Itoa(s.retainSessions);
    SplitJoined(Fields(s));
    assert NUL !in e;
    FivePiecesSplit(e, s.dir, s.timeout, q, r);
  }

  lemma PiecesCons(p: string, rest: seq<string>)
    ensures Pieces([p] + rest) == Split(p, NUL) + Pieces(rest)
  {
    assert ([p] + rest)[1..] == rest;
  }

  lemma FivePiecesSplit(e: string, d: string, t: string, q: string, r: string)
    requires NUL !in e && NUL !in q && NUL !in r
    ensures Pieces([e, d, t, q, r]) == [e] + Split(d, NUL) + Split(t, NUL) + [q, r]
  {
    SplitSize(e);
    SplitSize(q);
    SplitSize(r);
    PiecesCons(r, []);
    PiecesCons(q, [r]);
    PiecesCons(t, [q, r]);
    PiecesCons(d, [t, q, r]);
    PiecesCons(e, [d, t, q, r]);
    assert [r] + [] == [r] && [q] + [r] == [q, r] && [t] + [q, r] == [t, q, r];
    assert [d] + [t, q, r] == [d, t, q, r] && [e] + [d, t, q, r] == [e, d, t, q, r];
    Reassociate([e], Split(d, NUL), Split(t, NUL), [q, r]);
  }

  lemma Reassociate(a: seq<string>, b: seq<string>, c: seq<string>, d: seq<string>)
    ensures a + (b + (c + d)) == a + b + c + d
  {
  }

  lemma SameSettings(a: Scheduler, b: Scheduler)
    requires NUL !in a.dir && NUL !in b.dir
    requires SchedulerFingerprint(Some(a)) == SchedulerFingerprint(Some(b))
    ensures a == b
  {
    FingerprintPieces(a);
    FingerprintPieces(b);
    SplitSize(a.dir);
    SplitSize(b.dir);
    var p := Split(SchedulerFingerprint(Some(a)), NUL);
    FivePieces(p, a);
    FivePieces(p, b);
    JoinSplit(a.timeout, NUL);
    JoinSplit(b.timeout, NUL);
    ItoaInjective(a.maxQueue, b.maxQueue);
    ItoaInjective(a.retainSessions, b.retainSessions);
  }

  /** The timeout is whatever stands between the first two pieces and the last two. */
  lemma FivePieces(p: seq<string>, s: Scheduler)
    requires p == [FormatBool(s.enabled)] + [s.dir] + Split(s.timeout, NUL) + [Itoa(s.maxQueue), Itoa(s.retainSessions)]
    ensures |p| >= 4 && p[0] == FormatBool(s.enabled) && p[1] == s.dir
    ensures p[2..|p| - 2] == Split(s.timeout, NUL)
    ensures p[|p| - 2] == Itoa(s.maxQueue) && p[|p| - 1] == Itoa(s.retainSessions)
  {
  }

  lemma NeverEmpty(s: Scheduler)
    ensures SchedulerFingerprint(Some(s)) != ""
  {
    FingerprintPieces(s);
    assert |Split("", NUL)| == 1;
  }

  /** Two configurations have one fingerprint exactly when all five settings are equal, whatever
      the timeouts hold, and a missing configuration shares its fingerprint with none. */
  lemma FingerprintTellsTheSettings(a: Option<Scheduler>, b: Option<Scheduler>)
    requires PlainDir(a) && PlainDir(b)
    ensures SchedulerFingerprint(a) == SchedulerFingerprint(b) <==> a == b
  {
    if a.Some? {
      NeverEmpty(a.value);
    }
    if b.Some? {
      NeverEmpty(b.value);
    }
    if a.Some? && b.Some? && SchedulerFingerprint(a) == SchedulerFingerprint(b) {
      SameSettings(a.value, b.value);
    }
  }
}
