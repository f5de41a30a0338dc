/** The dashboard's alert journal: a deque bounded to 100 entries, plus a
    deduplication map from the key "event_type + '_' + trigger_source" to the
    last (event_type, trigger_source, details) triple logged under that key.
    The map is never trimmed when the deque drops its oldest entries. */
module Alerts {

  /** `deque(maxlen=100)` */
  const MaxAlerts: nat := 100

  datatype Alert = Alert(timestamp: int, eventType: string, triggerSource: string, details: string)

  /** The triple stored in `last_alert_state`. */
  datatype AlertState = AlertState(eventType: string, triggerSource: string, details: string)

  /** `f"{event_type}_{trigger_source}"` */
  function AlertKey(eventType: string, triggerSource: string): string
  {
    eventType + "_" + triggerSource
  }

  /** Two different (event type, source) pairs can share a key. */
  lemma KeysCollide()
    ensures AlertKey("a_b", "c") == AlertKey("a", "b_c")
  {
  }

  /** ... but not when the event types hold no underscore: then the key
      determines the pair. */
  lemma {:induction false} KeyInjectiveWithoutUnderscore(e1: string, s1: string, e2: string, s2: string)
    requires '_' !in e1 && '_' !in e2
    requires AlertKey(e1, s1) == AlertKey(e2, s2)
    ensures e1 == e2 && s1 == s2
  {
    var k := AlertKey(e1, s1);
    // both event types end where the key's first underscore is
    assert forall i :: 0 <= i < |e1| ==> k[i] == e1[i] && k[i] != '_';
    assert forall i :: 0 <= i < |e2| ==> k[i] == e2[i] && k[i] != '_';
    assert k[|e1|] == '_' && k[|e2|] == '_';
    assert |e1| == |e2|;
    assert e1 == k[..|e1|] && e2 == k[..|e2|];
    assert s1 == k[|e1| + 1..] && s2 == k[|e2| + 1..];
  }

  /** The journal's contents: the deque and the deduplication map. */
  datatype Journal = Journal(log: seq<Alert>, last: map<string, AlertState>)
  {
    ghost predicate Valid()
    {
      |log| <= MaxAlerts
    }
  }

  /** A fresh journal, and the journal after "Clear Alerts". */
  const Empty: Journal := Journal([], map[])

  /** The newest `n` elements of `s` (all of `s` if it is shorter). */
  function Newest<T>(s: seq<T>, n: nat): (r: seq<T>)
    ensures |r| == if |s| <= n then |s| else n
  {
    if |s| <= n then s else s[|s| - n..]
  }

  /** `Newest(s, n)` is the suffix of `s` of its length. */
  lemma NewestIsSuffix<T>(s: seq<T>, n: nat)
    ensures forall i :: 0 <= i < |Newest(s, n)| ==> Newest(s, n)[i] == s[|s| - |Newest(s, n)| + i]
  {
  }

  /** `deque.append` on a full deque drops the oldest entry. */
  function BoundedAppend(log: seq<Alert>, a: Alert): (r: seq<Alert>)
    requires |log| <= MaxAlerts
    ensures r == Newest(log + [a], MaxAlerts)
    ensures |r| <= MaxAlerts && r[|r| - 1] == a
  {
    NewestIsSuffix(log + [a], MaxAlerts);
    if |log| == MaxAlerts then log[1..] + [a] else log + [a]
  }

  /** A call is logged when its key is absent or the stored triple differs. */
  predicate IsNew(j: Journal, eventType: string, triggerSource: string, details: string)
  {
    var key := AlertKey(eventType, triggerSource);
    key !in j.last || j.last[key] != AlertState(eventType, triggerSource, details)
  }

  /** `log_alert(event_type, trigger_source, details)` at instant `now`. */
  function LogAlert(j: Journal, now: int, eventType: string, triggerSource: string, details: string): (r: Journal)
    requires j.Valid()
    ensures r.Valid()
    ensures IsNew(j, eventType, triggerSource, details) ==>
              r.log == Newest(j.log + [Alert(now, eventType, triggerSource, details)], MaxAlerts)
    ensures !IsNew(j, eventType, triggerSource, details) ==> r == j
    ensures r.last.Keys == j.last.Keys + {AlertKey(eventType, triggerSource)}
    ensures r.last[AlertKey(eventType, triggerSource)] == AlertState(eventType, triggerSource, details)
  {
    var key := AlertKey(eventType, triggerSource);
    var current := AlertState(eventType, triggerSource, details);
    if key !in j.last || j.last[key] != current then
      Journal(BoundedAppend(j.log, Alert(now, eventType, triggerSource, details)), j.last[key := current])
    else
      j
  }

  /** A call leaves the triples stored under other keys as they were. */
  lemma OtherKeysUnchanged(j: Journal, now: int, eventType: string, triggerSource: string, details: string, k: string)
    requires j.Valid() && k in j.last && k != AlertKey(eventType, triggerSource)
    ensures LogAlert(j, now, eventType, triggerSource, details).last[k] == j.last[k]
  {
  }

  /** One call of `log_alert`, with the instant it happens. */
  datatype Call = Call(now: int, eventType: string, triggerSource: string, details: string)

  function StateOf(c: Call): AlertState
  {
    AlertState(c.eventType, c.triggerSource, c.details)
  }

  function LogCall(j: Journal, c: Call): (r: Journal)
    requires j.Valid()
    ensures r.Valid()
  {
    LogAlert(j, c.now, c.eventType, c.triggerSource, c.details)
  }

  /** A sequence of `log_alert` calls, in order. */
  function LogAll(j: Journal, calls: seq<Call>): (r: Journal)
    requires j.Valid()
    ensures r.Valid()
    decreases |calls|
  {
    if calls == [] then j else LogAll(LogCall(j, calls[0]), calls[1..])
  }

  /** The alert that call `c` appends to the deque, if any. */
  function Appended(j: Journal, c: Call): (r: seq<Alert>)
    requires j.Valid()
    ensures LogCall(j, c).log == Newest(j.log + r, MaxAlerts)
  {
    if IsNew(j, c.eventType, c.triggerSource, c.details) then [Alert(c.now, c.eventType, c.triggerSource, c.details)]
    else assert j.log + [] == j.log; []
  }

  /** The alerts that a sequence of calls appends, oldest first. */
  function Accepted(j: Journal, calls: seq<Call>): seq<Alert>
    requires j.Valid()
    decreases |calls|
  {
    if calls == [] then [] else Appended(j, calls[0]) + Accepted(LogCall(j, calls[0]), calls[1..])
  }

  /** Whether call `c` would overwrite the triple `st` stored under key `k`. */
  predicate Overwrites(c: Call, k: string, st: AlertState)
  {
    AlertKey(c.eventType, c.triggerSource) == k && StateOf(c) != st
  }

  lemma {:induction false} StoredStateSurvives(j: Journal, calls: seq<Call>, k: string, st: AlertState)
    requires j.Valid() && k in j.last && j.last[k] == st
    requires forall i :: 0 <= i < |calls| ==> !Overwrites(calls[i], k, st)
    ensures k in LogAll(j, calls).last && LogAll(j, calls).last[k] == st
    decreases |calls|
  {
    if calls != [] {
      assert !Overwrites(calls[0], k, st);
      if AlertKey(calls[0].eventType, calls[0].triggerSource) != k {
        OtherKeysUnchanged(j, calls[0].now, calls[0].eventType, calls[0].triggerSource, calls[0].details, k);
      }
      StoredStateSurvives(LogCall(j, calls[0]), calls[1..], k, st);
    }
  }

  /** A triple logged once is not logged again, however many other calls come
      between, unless one of them stores a different triple under the same key. */
  lemma RepeatIsSuppressed(j: Journal, c: Call, between: seq<Call>, again: int)
    requires j.Valid()
    requires forall i :: 0 <= i < |between| ==> !Overwrites(between[i], AlertKey(c.eventType, c.triggerSource), StateOf(c))
    ensures var j1 := LogAll(LogCall(j, c), between);
            LogCall(j1, Call(again, c.eventType, c.triggerSource, c.details)) == j1
  {
    StoredStateSurvives(LogCall(j, c), between, AlertKey(c.eventType, c.triggerSource), StateOf(c));
  }

  /** Two pairs sharing a key overwrite each other's stored triple: logged
      alternately, each call is new again and appends. */
  lemma CollidingKeysAlternate(j: Journal, now1: int, now2: int, e1: string, s1: string, d1: string,
                               e2: string, s2: string, d2: string)
    requires j.Valid() && AlertKey(e1, s1) == AlertKey(e2, s2)
    requires AlertState(e1, s1, d1) != AlertState(e2, s2, d2)
    ensures var j1 := LogAlert(j, now1, e1, s1, d1);
            IsNew(j1, e2, s2, d2) && IsNew(LogAlert(j1, now2, e2, s2, d2), e1, s1, d1)
  {
  }

  lemma NewestOfNewest<T>(s: seq<T>, t: seq<T>, n: nat)
    ensures Newest(Newest(s, n) + t, n) == Newest(s + t, n)
  {
    var a, b := Newest(Newest(s, n) + t, n), Newest(s + t, n);
    NewestIsSuffix(s, n);
    NewestIsSuffix(Newest(s, n) + t, n);
    NewestIsSuffix(s + t, n);
    assert |a| == |b|;
    forall i | 0 <= i < |a| ensures a[i] == b[i] {
      var u := Newest(s, n) + t;
      if |u| - |a| + i >= |Newest(s, n)| {
        assert a[i] == t[|u| - |a| + i - |Newest(s, n)|];
      }
    }
  }

  lemma WindowStep(j: Journal, c: Call, rest: seq<Alert>)
    requires j.Valid()
    ensures Newest(LogCall(j, c).log + rest, MaxAlerts) == Newest(j.log + (Appended(j, c) + rest), MaxAlerts)
  {
    NewestOfNewest(j.log + Appended(j, c), rest, MaxAlerts);
    assert j.log + Appended(j, c) + rest == j.log + (Appended(j, c) + rest);
  }

  /** After any sequence of calls the deque holds exactly the newest 100 of
      everything ever appended: eviction is oldest first. */
  lemma {:induction false} LogIsNewestWindow(j: Journal, calls: seq<Call>)
    requires j.Valid()
    ensures LogAll(j, calls).log == Newest(j.log + Accepted(j, calls), MaxAlerts)
    decreases |calls|
  {
    if calls == [] {
      assert j.log + [] == j.log;
    } else {
      var j1 := LogCall(j, calls[0]);
      LogIsNewestWindow(j1, calls[1..]);
      WindowStep(j, calls[0], Accepted(j1, calls[1..]));
    }
  }

  /** The deduplication map only grows: keys are never forgotten, even when
      the deque has dropped every alert that used them. */
  lemma {:induction false} KeysNeverForgotten(j: Journal, calls: seq<Call>)
    requires j.Valid()
    ensures j.last.Keys <= LogAll(j, calls).last.Keys
    decreases |calls|
  {
    if calls != [] {
      KeysNeverForgotten(LogCall(j, calls[0]), calls[1..]);
    }
  }

  /** `st.session_state.alerts_log` and `st.session_state.last_alert_state`. */
  class AlertLog {
    var alertsLog: seq<Alert>
    var lastAlertState: map<string, AlertState>

    ghost predicate Valid()
      reads this
    {
      |alertsLog| <= MaxAlerts
    }

    function View(): Journal
      reads this
    {
      Journal(alertsLog, lastAlertState)
    }

    constructor ()
      ensures Valid() && View() == Empty
    {
      alertsLog := [];
      lastAlertState := map[];
    }

    /** `log_alert` */
    method Log(now: int, eventType: string, triggerSource: string, details: string)
      requires Valid()
      modifies this
      ensures Valid()
      ensures View() == LogAlert(old(View()), now, eventType, triggerSource, details)
    {
      var alertKey := AlertKey(eventType, triggerSource);
      var currentState := AlertState(eventType, triggerSource, details);
      if alertKey !in lastAlertState || lastAlertState[alertKey] != currentState {
        var alert := Alert(now, eventType, triggerSource, details);
        if |alertsLog| == MaxAlerts {
          alertsLog := alertsLog[1..];
        }
        alertsLog := alertsLog + [alert];
        lastAlertState := lastAlertState[alertKey := currentState];
      }
    }

    /** The "Clear Alerts" button: both the deque and the map are emptied. */
    method Clear()
      modifies this
      ensures Valid() && View() == Empty
    {
      alertsLog := [];
      lastAlertState := map[];
    }
  }
}
