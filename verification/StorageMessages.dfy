/** The storage queue's messages (storage_queue.hpp) and what tracking consent promises about
    them (storage_write.hpp), as a function of the message history alone. */
module StorageMessages {
  import opened Options
  import opened Consents
  import Tlv

  type FeatureId = nat

  datatype Message =
    | TrackingConsentChanged(value: Consent)
    | EventGenerated(feature: FeatureId, write: Tlv.Write, bypass: bool)

  type History = seq<Message>

  /** Consent in force after a history that began under `c0`. */
  function ConsentAfter(c0: Consent, log: History): Consent {
    if log == [] then c0
    else
      match log[|log| - 1]
      case TrackingConsentChanged(v) => v
      case EventGenerated(_, _, _) => ConsentAfter(c0, log[..|log| - 1])
  }

  /** The first actual change of consent after position `j`. */
  function NextConsent(c0: Consent, log: History, j: nat): Option<Consent> {
    if |log| <= j + 1 then None
    else
      var before := log[..|log| - 1];
      var next := NextConsent(c0, before, j);
      if next.Some? then next
      else
        match log[|log| - 1]
        case TrackingConsentChanged(v) => if v != ConsentAfter(c0, before) then Some(v) else None
        case EventGenerated(_, _, _) => None
  }

  predicate IsEventOf(f: FeatureId, log: History, j: nat) {
    j < |log| && log[j].EventGenerated? && log[j].feature == f
  }

  /** The events that may be uploaded: bypassing ones, those handled under granted consent,
      and those handled under pending consent that was next changed to granted. */
  predicate BelongsInGranted(c0: Consent, f: FeatureId, log: History, j: nat) {
    && IsEventOf(f, log, j)
    && (|| log[j].bypass
        || ConsentAfter(c0, log[..j]) == Granted
        || (ConsentAfter(c0, log[..j]) == Pending && NextConsent(c0, log, j) == Some(Granted)))
  }

  /** The events still awaiting a decision. */
  predicate BelongsInPending(c0: Consent, f: FeatureId, log: History, j: nat) {
    && IsEventOf(f, log, j)
    && !log[j].bypass
    && ConsentAfter(c0, log[..j]) == Pending
    && NextConsent(c0, log, j) == None
  }

  /** The events to be dropped at once. */
  predicate Refused(c0: Consent, log: History, j: nat) {
    j < |log| && log[j].EventGenerated? && !log[j].bypass && ConsentAfter(c0, log[..j]) == NotGranted
  }

  lemma {:induction false} ConsentAfterMore(c0: Consent, a: History, b: History)
    ensures ConsentAfter(ConsentAfter(c0, a), b) == ConsentAfter(c0, a + b)
  {
    if b == [] {
      assert a + b == a;
    } else {
      ConsentAfterMore(c0, a, b[..|b| - 1]);
      assert (a + b)[..|a + b| - 1] == a + b[..|b| - 1];
    }
  }

  // ---- one step of history ----

  lemma Extension(c0: Consent, log: History, m: Message, j: nat)
    requires j < |log|
    ensures (log + [m])[..j] == log[..j] && (log + [m])[..|log|] == log
    ensures ConsentAfter(c0, log + [m]) ==
      match m { case TrackingConsentChanged(v) => v case EventGenerated(_, _, _) => ConsentAfter(c0, log) }
    ensures NextConsent(c0, log + [m], j) ==
      if NextConsent(c0, log, j).Some? then NextConsent(c0, log, j)
      else if m.TrackingConsentChanged? && m.value != ConsentAfter(c0, log) then Some(m.value)
      else None
  {
    assert (log + [m])[..|log|] == log;
    assert (log + [m])[..j] == log[..j];
  }

  lemma ExtensionAtEnd(c0: Consent, log: History, m: Message)
    ensures (log + [m])[..|log|] == log && (log + [m])[|log|] == m
    ensures NextConsent(c0, log + [m], |log|) == None
    ensures ConsentAfter(c0, log + [m]) ==
      match m { case TrackingConsentChanged(v) => v case EventGenerated(_, _, _) => ConsentAfter(c0, log) }
  {
    assert (log + [m])[..|log|] == log;
  }

  /** While no change has followed position `j`, the consent it saw is still in force. */
  lemma {:induction false} UnchangedSince(c0: Consent, log: History, j: nat)
    requires j < |log| && log[j].EventGenerated? && NextConsent(c0, log, j) == None
    ensures ConsentAfter(c0, log) == ConsentAfter(c0, log[..j])
  {
    var before, m := log[..|log| - 1], log[|log| - 1];
    assert log == before + [m];
    if j < |before| {
      assert before[..j] == log[..j];
      UnchangedSince(c0, before, j);
    }
  }

  // ---- the ledger: consent handling without files ----

  /** Positions of the events of one feature held in its two directories. */
  datatype Ledger = Ledger(consent: Consent, pending: set<nat>, granted: set<nat>)

  function Apply(f: FeatureId, l: Ledger, j: nat, m: Message): Ledger {
    match m
    case TrackingConsentChanged(v) =>
      if v == l.consent then l
      else (
        match v
        case Pending => l.(consent := v)
        case NotGranted => Ledger(v, {}, l.granted)
        case Granted => Ledger(v, {}, l.granted + l.pending))
    case EventGenerated(g, _, bypass) =>
      if g != f then l
      else
        match if bypass then Granted else l.consent
        case Granted => l.(granted := l.granted + {j})
        case Pending => l.(pending := l.pending + {j})
        case NotGranted => l
  }

  function Replay(f: FeatureId, c0: Consent, log: History): Ledger {
    if log == [] then Ledger(c0, {}, {})
    else Apply(f, Replay(f, c0, log[..|log| - 1]), |log| - 1, log[|log| - 1])
  }

  ghost predicate Describes(c0: Consent, f: FeatureId, log: History, l: Ledger) {
    && l.consent == ConsentAfter(c0, log)
    && (forall j :: j in l.granted <==> BelongsInGranted(c0, f, log, j))
    && (forall j :: j in l.pending <==> BelongsInPending(c0, f, log, j))
  }

  lemma AppliedLedgerDescribes(c0: Consent, f: FeatureId, log: History, l: Ledger, m: Message)
    requires Describes(c0, f, log, l)
    ensures Describes(c0, f, log + [m], Apply(f, l, |log|, m))
  {
    ExtensionAtEnd(c0, log, m);
    var l' := Apply(f, l, |log|, m);
    forall j: nat
      ensures j in l'.granted <==> BelongsInGranted(c0, f, log + [m], j)
      ensures j in l'.pending <==> BelongsInPending(c0, f, log + [m], j)
    {
      if j < |log| {
        Extension(c0, log, m, j);
        if IsEventOf(f, log, j) && NextConsent(c0, log, j) == None {
          UnchangedSince(c0, log, j);
        }
      }
    }
  }

  /** Handling messages one by one stores exactly the events that consent allows, in the
      directory it allows, for every history. */
  lemma {:induction false} ReplayDescribes(c0: Consent, f: FeatureId, log: History)
    ensures Describes(c0, f, log, Replay(f, c0, log))
  {
    if log != [] {
      ReplayDescribes(c0, f, log[..|log| - 1]);
      AppliedLedgerDescribes(c0, f, log[..|log| - 1], Replay(f, c0, log[..|log| - 1]), log[|log| - 1]);
      assert log == log[..|log| - 1] + [log[|log| - 1]];
    }
  }

  /** Whenever consent is not pending, nothing is waiting in the pending directory. */
  lemma PendingOnlyUnderPending(c0: Consent, f: FeatureId, log: History)
    requires ConsentAfter(c0, log) != Pending
    ensures Replay(f, c0, log).pending == {}
  {
    ReplayDescribes(c0, f, log);
    forall j | j in Replay(f, c0, log).pending
      ensures false
    {
      UnchangedSince(c0, log, j);
    }
  }
}
