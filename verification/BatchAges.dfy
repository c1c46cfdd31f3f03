/** How old the file is that an event goes to (storage_write.cpp). */
module BatchAges {
  import opened Consents
  import opened Filenames
  import opened Directories
  import opened BatchWriters
  import opened StorageMessages
  import opened WriterRuns
  import opened BatchBounds
  import opened DirectoryBounds
  import Tlv

  /** An active file that has grown too old is never written to again: there is no file, or a new
      one, which is not in the directory while all names tried have the same number of digits. */
  lemma OldFileIsReplaced(cfg: Config, x: Platform, a: Active, d: Dir, now: int, size: nat, a1: Active, d1: Dir)
    requires FileReady(cfg, x, a, d, now, size, a1, d1)
    requires a.name != "" && now - a.ms * 1_000_000 > cfg.maxFileAge
    ensures a1 == NO_FILE || (a1.writes == 0 && a1.bytes == 0 && NowInMs(now) <= a1.ms < NowInMs(now) + 100)
    ensures |Digits(NowInMs(now))| == |Digits(NowInMs(now) + 99)| ==> a1 == NO_FILE || a1.name !in d1
  {
    FileIsKeptOrReplaced(cfg, x, a, d, now, size, a1, d1);
    if |Digits(NowInMs(now))| == |Digits(NowInMs(now) + 99)| {
      RotationIsFresh(cfg, x, a, d, now, size, a1, d1);
    }
  }

  /** The name of an active file is its time. */
  ghost predicate NamedByTime(a: Active) {
    a.name != "" ==> a.name == Digits(a.ms)
  }

  ghost predicate BothNamedByTime(s: Writer) {
    NamedByTime(s.activePending) && NamedByTime(s.activeGranted)
  }

  /** The file is at most `maxFileAge` old, or was begun at this very millisecond or later. */
  predicate IsYoung(cfg: Config, ms: nat, now: int) {
    now - ms * 1_000_000 <= cfg.maxFileAge || now - ms * 1_000_000 < 1_000_000
  }

  /** One event changes no file but one, and that one is young. */
  lemma FlushChangesYoungFile(cfg: Config, x: Platform, a: Active, d: Dir, w: Tlv.Write, o: Origin, now: int,
                              a': Active, d': Dir, ok: bool)
    requires Flushed(cfg, x, a, d, w, o, now, a', d', ok) && NamedByTime(a)
    ensures NamedByTime(a')
    ensures forall n :: n in d' && !(n in d && d'[n] == d[n]) ==> n == Digits(a'.ms) && IsYoung(cfg, a'.ms, now)
  {
    if Accepts(cfg, w) {
      var size := Tlv.EncodedSize(w);
      var a1, d1 :| FileReady(cfg, x, a, d, now, size, a1, d1) && Committed(x, a1, d1, w, o, a', d', ok);
      FileIsKeptOrReplaced(cfg, x, a, d, now, size, a1, d1);
      ReadyFileIsSub(cfg, x, a, d, now, size, a1, d1);
    }
  }

  lemma ReadyFileIsSub(cfg: Config, x: Platform, a: Active, d: Dir, now: int, size: nat, a1: Active, d1: Dir)
    requires FileReady(cfg, x, a, d, now, size, a1, d1)
    ensures Sub(d1, d)
  {
  }

  lemma TurnKeepsNames(cfg: Config, f: FeatureId, i: nat, m: Message, t: Turn)
    requires Handles(cfg, f, i, m, t) && BothNamedByTime(t.start)
    ensures BothNamedByTime(t.end)
  {
    if m.EventGenerated? && m.feature == f {
      match Target(t.start.consent, m.bypass)
      case Granted =>
        FlushChangesYoungFile(cfg, t.x.granted, t.start.activeGranted, t.start.granted, m.write, Handled(i), t.now,
          t.end.activeGranted, t.end.granted, t.ok);
      case Pending =>
        FlushChangesYoungFile(cfg, t.x.pending, t.start.activePending, t.start.pending, m.write, Handled(i), t.now,
          t.end.activePending, t.end.pending, t.ok);
      case NotGranted =>
    }
  }

  lemma {:induction false} TurnOfRun(cfg: Config, f: FeatureId, init: Writer, log: History, turns: seq<Turn>, i: nat)
    requires IsRun(cfg, f, init, log, turns) && i < |log|
    ensures IsRun(cfg, f, init, log[..i], turns[..i])
    ensures Evicted(StateAfter(init, turns[..i]), turns[i].start) && Handles(cfg, f, i, log[i], turns[i])
    decreases |log|
  {
    var n := |log| - 1;
    if i < n {
      TurnOfRun(cfg, f, init, log[..n], turns[..n], i);
      assert log[..n][..i] == log[..i] && turns[..n][..i] == turns[..i];
    }
  }

  lemma {:induction false} RunKeepsNames(cfg: Config, f: FeatureId, init: Writer, log: History, turns: seq<Turn>)
    requires Initial(init) && IsRun(cfg, f, init, log, turns)
    ensures BothNamedByTime(StateAfter(init, turns))
    decreases |log|
  {
    if log != [] {
      var n := |log| - 1;
      RunKeepsNames(cfg, f, init, log[..n], turns[..n]);
      TurnKeepsNames(cfg, f, n, log[n], turns[n]);
    }
  }

  /** In every run, whatever fails and whatever other threads remove: a file that an event changes
      or creates is named after a time at most `maxFileAge` ago, or after the present. */
  lemma EventsGoToYoungFiles(cfg: Config, f: FeatureId, init: Writer, log: History, turns: seq<Turn>, i: nat,
                             c: Consent, n: Name)
    returns (ms: nat)
    requires Initial(init) && IsRun(cfg, f, init, log, turns) && i < |log| && log[i].EventGenerated? && c != NotGranted
    requires
      var before, after := DirOf(turns[i].start, c), DirOf(turns[i].end, c);
      n in after && !(n in before && after[n] == before[n])
    ensures n == Digits(ms) && IsYoung(cfg, ms, turns[i].now)
  {
    TurnOfRun(cfg, f, init, log, turns, i);
    RunKeepsNames(cfg, f, init, log[..i], turns[..i]);
    var t, m := turns[i], log[i];
    ms := ActiveOf(t.end, c).ms;
    FlushChangesYoungFile(cfg, PlatformOf(t.x, c), ActiveOf(t.start, c), DirOf(t.start, c), m.write, Handled(i), t.now,
      ActiveOf(t.end, c), DirOf(t.end, c), t.ok);
  }
}
