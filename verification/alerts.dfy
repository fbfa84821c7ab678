/**
 * The alert cooldown gate of internal/alerts/twilio.go.
 *
 * Before texting an alert for a source, the alerter reads the key
 * `last_alert:<source>` from a key-value store with per-key expiry. A missing
 * key allows the alert; a failed read or a value that is not an RFC 3339
 * timestamp denies it; otherwise the alert is allowed once 30 seconds have
 * passed since the stored time. After a successful send the key is set to the
 * current time, written in RFC 3339 with whole seconds, with a 30-second
 * expiry.
 *
 * The clock, the store's availability and the SMS call's success are inputs.
 */
module Alerts {

  /** An instant or a duration, in nanoseconds. */
  type Time = int

  const Second: Time := 1_000_000_000

  /** Minimum time between two alerts for one source; also the record's expiry. */
  const Cooldown: Time := 30 * Second

  const KeyPrefix: string := "last_alert:"

  /** The store key for a source: the same string is read by the gate and
      written after a send. */
  function KeyFor(source: string): (key: string)
    ensures |key| == |KeyPrefix| + |source|
    ensures key[..|KeyPrefix|] == KeyPrefix && key[|KeyPrefix|..] == source
  {
    KeyPrefix + source
  }

  /** Distinct sources never share a key. */
  lemma KeysDistinct(a: string, b: string)
    requires a != b
    ensures KeyFor(a) != KeyFor(b)
  {
    assert KeyFor(a)[|KeyPrefix|..] == a;
    assert KeyFor(b)[|KeyPrefix|..] == b;
  }

  /** The instant denoted by `t` formatted as RFC 3339 without fractional
      seconds: `t` rounded down to the whole second. */
  function WholeSeconds(t: Time): (r: Time)
    ensures r <= t < r + Second
    ensures r % Second == 0
  {
    (t / Second) * Second
  }

  // ---------------------------------------------------------------------
  // The store
  // ---------------------------------------------------------------------

  datatype Option<T> = None | Some(value: T)

  /** A stored string: either an RFC 3339 timestamp, given by the instant it
      parses to, or text that does not parse. */
  datatype Stored = Stamp(at: Time) | Malformed

  /** A key's value and, when it has one, the instant it expires. */
  datatype Entry = Entry(value: Stored, expiresAt: Option<Time>)

  type Store = map<string, Entry>

  predicate Live(e: Entry, now: Time) {
    e.expiresAt.None? || now < e.expiresAt.value
  }

  /** What reading a key and parsing its value can give. */
  datatype Reading = NotFound | ReadError | Unparseable | Found(at: Time)

  /** GET of `key` at `now`, followed by RFC 3339 parsing; `fault` stands for
      an unreachable or failing store. Expired keys are absent. */
  function Get(store: Store, key: string, now: Time, fault: bool): (r: Reading)
    ensures fault <==> r.ReadError?
    ensures r.NotFound? <==> !fault && (key !in store || !Live(store[key], now))
    ensures r.Unparseable? <==> !fault && key in store && Live(store[key], now) && store[key].value.Malformed?
    ensures r.Found? ==> key in store && store[key].value == Stamp(r.at)
  {
    if fault then ReadError
    else if key !in store || !Live(store[key], now) then NotFound
    else match store[key].value
      case Malformed => Unparseable
      case Stamp(t) => Found(t)
  }

  /** The SET after a successful send: the source's key holds the send time,
      at second precision, and expires one cooldown later. */
  function Record(store: Store, source: string, now: Time): (r: Store)
    ensures Get(r, KeyFor(source), now, false) == Found(WholeSeconds(now))
    ensures KeyFor(source) in r && r[KeyFor(source)].expiresAt == Some(now + Cooldown)
    ensures forall k :: k != KeyFor(source) ==> (k in r <==> k in store) && (k in r ==> r[k] == store[k])
  {
    store[KeyFor(source) := Entry(Stamp(WholeSeconds(now)), Some(now + Cooldown))]
  }

  // ---------------------------------------------------------------------
  // The gate
  // ---------------------------------------------------------------------

  /** CanSendAlert's decision on what the read gave. It allows an alert
      exactly when no alert is on record, or the recorded one lies at least a
      full cooldown before `now`; every failure to read or parse denies. */
  function Allows(reading: Reading, now: Time): (ok: bool)
    ensures ok <==> reading.NotFound? || (reading.Found? && reading.at + Cooldown <= now)
  {
    match reading
    case NotFound => true
    case ReadError => false
    case Unparseable => false
    case Found(last) => !(now - last < Cooldown)
  }

  /** What SendTwilioAlert did: the gate denied (nothing sent), the SMS call
      failed, or the SMS went out. */
  datatype Outcome = Suppressed | SendFailed | Sent

  datatype Step = Step(outcome: Outcome, store: Store)

  /** SendTwilioAlert on a store: gate, send, then record on success.
      `delivered` is the SMS call's success and `writeOk` the SET's; the
      source ignores a failed SET. */
  function Dispatch(store: Store, source: string, now: Time, readFault: bool, delivered: bool, writeOk: bool): (r: Step)
    ensures r.outcome == Sent <==> Allows(Get(store, KeyFor(source), now, readFault), now) && delivered
    ensures r.store == (if r.outcome == Sent && writeOk then Record(store, source, now) else store)
  {
    if !Allows(Get(store, KeyFor(source), now, readFault), now) then Step(Suppressed, store)
    else if !delivered then Step(SendFailed, store)
    else Step(Sent, if writeOk then Record(store, source, now) else store)
  }

  /** A gate that denies sends nothing and leaves the store unchanged; a
      failed send records nothing. */
  lemma NoRecordWithoutSend(store: Store, source: string, now: Time, readFault: bool, delivered: bool, writeOk: bool)
    ensures var r := Dispatch(store, source, now, readFault, delivered, writeOk);
      r.outcome != Sent ==> r.store == store
    ensures var r := Dispatch(store, source, now, readFault, delivered, writeOk);
      r.outcome == Suppressed <==> !Allows(Get(store, KeyFor(source), now, readFault), now)
    ensures var r := Dispatch(store, source, now, readFault, delivered, writeOk);
      r.outcome == SendFailed <==> Allows(Get(store, KeyFor(source), now, readFault), now) && !delivered
  {
  }

  /** A store read that fails always suppresses the alert. */
  lemma FailsClosed(store: Store, source: string, now: Time, delivered: bool, writeOk: bool)
    ensures Dispatch(store, source, now, true, delivered, writeOk) == Step(Suppressed, store)
  {
  }

  /** A dispatch touches only its own source's key: what any other source
      reads afterwards is what it read before. */
  lemma OtherSourcesUntouched(store: Store, source: string, other: string, now: Time, readFault: bool, delivered: bool, writeOk: bool, later: Time, fault: bool)
    requires other != source
    ensures Get(Dispatch(store, source, now, readFault, delivered, writeOk).store, KeyFor(other), later, fault)
         == Get(store, KeyFor(other), later, fault)
  {
    KeysDistinct(source, other);
  }

  /** Right after a send was recorded at `sent`, the gate for that source
      opens exactly once a full cooldown has passed since `sent` rounded down
      to the second. Expiry of the record never opens it earlier. */
  lemma GateAfterRecord(store: Store, source: string, sent: Time, now: Time)
    ensures Allows(Get(Record(store, source, sent), KeyFor(source), now, false), now)
        <==> now >= WholeSeconds(sent) + Cooldown
  {
  }

  /** Right after a successful send whose record was written, a second
      attempt for the same source within 29 seconds is suppressed; from 30
      seconds on it is allowed. */
  lemma CooldownSchedule(store: Store, source: string, sent: Time, elapsed: Time, readFault: bool, delivered: bool)
    requires 0 <= elapsed
    ensures var s := Record(store, source, sent);
      elapsed <= Cooldown - Second ==>
        Dispatch(s, source, sent + elapsed, readFault, delivered, true).outcome == Suppressed
    ensures var s := Record(store, source, sent);
      elapsed >= Cooldown && !readFault ==>
        Dispatch(s, source, sent + elapsed, readFault, delivered, true).outcome != Suppressed
  {
    GateAfterRecord(store, source, sent, sent + elapsed);
  }

  // ---------------------------------------------------------------------
  // Runs of attempts
  // ---------------------------------------------------------------------

  /** One call of SendTwilioAlert with its environment. */
  datatype Attempt = Attempt(source: string, now: Time, readFault: bool, delivered: bool, writeOk: bool)

  datatype Trace = Trace(outcomes: seq<Outcome>, store: Store)

  /** The outcomes and final store of a run of attempts, one after another. */
  function Replay(store: Store, attempts: seq<Attempt>): (r: Trace)
    ensures |r.outcomes| == |attempts|
  {
    if attempts == [] then Trace([], store)
    else
      var before := Replay(store, attempts[..|attempts| - 1]);
      var a := attempts[|attempts| - 1];
      var step := Dispatch(before.store, a.source, a.now, a.readFault, a.delivered, a.writeOk);
      Trace(before.outcomes + [step.outcome], step.store)
  }

  predicate InTimeOrder(attempts: seq<Attempt>) {
    forall i, j :: 0 <= i < j < |attempts| ==> attempts[i].now <= attempts[j].now
  }

  predicate WritesSucceed(attempts: seq<Attempt>) {
    forall i :: 0 <= i < |attempts| ==> attempts[i].writeOk
  }

  /** `e` holds back alerts sent at `t`: it is a timestamp less than a second
      before `t` that stays in the store at least a cooldown past itself. */
  predicate Guards(e: Entry, t: Time) {
    && e.value.Stamp?
    && e.value.at > t - Second
    && e.expiresAt.Some?
    && e.expiresAt.value >= e.value.at + Cooldown
  }

  lemma GuardBlocks(store: Store, key: string, t: Time, now: Time, fault: bool)
    requires key in store && Guards(store[key], t)
    requires Allows(Get(store, key, now, fault), now)
    ensures now - t > Cooldown - Second
  {
  }

  lemma RecordGuards(store: Store, source: string, now: Time, t: Time)
    requires t <= now
    ensures Guards(Record(store, source, now)[KeyFor(source)], t)
  {
  }

  /** After a run of attempts whose records are all written, every source
      that was sent an alert still has an entry that guards against another
      send within the cooldown of that alert. */
  lemma {:induction false} SentAreGuarded(store: Store, attempts: seq<Attempt>)
    requires InTimeOrder(attempts) && WritesSucceed(attempts)
    ensures var tr := Replay(store, attempts);
      forall i :: 0 <= i < |attempts| && tr.outcomes[i] == Sent ==>
        KeyFor(attempts[i].source) in tr.store && Guards(tr.store[KeyFor(attempts[i].source)], attempts[i].now)
  {
    if attempts != [] {
      var n := |attempts|;
      var init := attempts[..n - 1];
      SentAreGuarded(store, init);
      var before := Replay(store, init);
      var a := attempts[n - 1];
      var step := Dispatch(before.store, a.source, a.now, a.readFault, a.delivered, a.writeOk);
      var tr := Replay(store, attempts);
      assert tr.outcomes == before.outcomes + [step.outcome] && tr.store == step.store;
      forall i | 0 <= i < n && tr.outcomes[i] == Sent
        ensures KeyFor(attempts[i].source) in tr.store && Guards(tr.store[KeyFor(attempts[i].source)], attempts[i].now)
      {
        if i == n - 1 {
          RecordGuards(before.store, a.source, a.now, a.now);
        } else {
          assert init[i] == attempts[i] && before.outcomes[i] == Sent;
          if step.outcome == Sent {
            if attempts[i].source == a.source {
              RecordGuards(before.store, a.source, a.now, attempts[i].now);
            } else {
              KeysDistinct(attempts[i].source, a.source);
            }
          }
        }
      }
    }
  }

  /** When times do not go backwards and every record is written, two alerts
      sent for the same source are more than 29 seconds apart. (The bound is
      not 30 seconds because the record keeps whole seconds only.) */
  lemma {:induction false} SendsAreSpaced(store: Store, attempts: seq<Attempt>)
    requires InTimeOrder(attempts) && WritesSucceed(attempts)
    ensures var tr := Replay(store, attempts);
      forall i, j ::
        (0 <= i < j < |attempts| && tr.outcomes[i] == Sent && tr.outcomes[j] == Sent &&
         attempts[i].source == attempts[j].source) ==> attempts[j].now - attempts[i].now > Cooldown - Second
  {
    if attempts != [] {
      var n := |attempts|;
      var init := attempts[..n - 1];
      SendsAreSpaced(store, init);
      SentAreGuarded(store, init);
      var before := Replay(store, init);
      var a := attempts[n - 1];
      var step := Dispatch(before.store, a.source, a.now, a.readFault, a.delivered, a.writeOk);
      var tr := Replay(store, attempts);
      assert tr.outcomes == before.outcomes + [step.outcome];
      forall i, j | 0 <= i < j < n && tr.outcomes[i] == Sent && tr.outcomes[j] == Sent
          && attempts[i].source == attempts[j].source
        ensures attempts[j].now - attempts[i].now > Cooldown - Second
      {
        assert init[i] == attempts[i] && before.outcomes[i] == Sent;
        if j < n - 1 {
          assert init[j] == attempts[j] && before.outcomes[j] == Sent;
        } else {
          GuardBlocks(before.store, KeyFor(a.source), attempts[i].now, a.now, a.readFault);
        }
      }
    }
  }

  /** The 29-second bound is reached: a send at 0.999999999 s is recorded as
      0 s, so a second send at 30 s goes out, 29.000000001 s later. */
  lemma SpacingBoundIsTight(source: string)
    ensures var attempts := [Attempt(source, Second - 1, false, true, true), Attempt(source, Cooldown, false, true, true)];
      && Replay(map[], attempts).outcomes == [Sent, Sent]
      && attempts[1].now - attempts[0].now == Cooldown - Second + 1
  {
    var first := Attempt(source, Second - 1, false, true, true);
    var attempts := [first, Attempt(source, Cooldown, false, true, true)];
    assert attempts[..1] == [first] && [first][..0] == [];
    assert Replay(map[], [first][..0]) == Trace([], map[]);
    assert Dispatch(map[], source, Second - 1, false, true, true) == Step(Sent, Record(map[], source, Second - 1));
    var one := Replay(map[], [first]);
    assert one.outcomes == [Sent];
    assert WholeSeconds(Second - 1) == 0;
    assert one.store == map[KeyFor(source) := Entry(Stamp(0), Some(Second - 1 + Cooldown))];
    assert Get(one.store, KeyFor(source), Cooldown, false) == Found(0);
  }

  // ---------------------------------------------------------------------
  // The alerter
  // ---------------------------------------------------------------------

  /** The process's alerting state: the suppression store it shares with
      every caller. */
  class Alerter {
    var store: Store

    constructor (initial: Store)
      ensures store == initial
    {
      store := initial;
    }

    /** Reads the source's key and decides. Any failure to read or parse
        denies; a key that is missing or expired allows; a recorded time
        allows once a full cooldown has passed. */
    method CanSendAlert(source: string, now: Time, readFault: bool) returns (ok: bool)
      ensures ok <==>
        !readFault &&
        (KeyFor(source) !in store || !Live(store[KeyFor(source)], now) ||
         (store[KeyFor(source)].value.Stamp? && store[KeyFor(source)].value.at + Cooldown <= now))
    {
      var key := KeyFor(source);
      var reading := Get(store, key, now, readFault);
      ok := Allows(reading, now);
    }

    /** Gate, send, then record. Nothing is written unless the SMS went out
        and the SET succeeded. */
    method SendTwilioAlert(source: string, now: Time, readFault: bool, delivered: bool, writeOk: bool)
      returns (outcome: Outcome)
      modifies this
      ensures Step(outcome, store) == Dispatch(old(store), source, now, readFault, delivered, writeOk)
    {
      var allowed := CanSendAlert(source, now, readFault);
      if !allowed {
        return Suppressed;
      }
      if !delivered {
        return SendFailed;
      }
      if writeOk {
        store := Record(store, source, now);
      }
      return Sent;
    }
  }
}
