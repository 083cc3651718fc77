/** The state history and alert counters of the older monitoring loop
    (core/base.py, `StateManager`): every analysed state is recorded in a
    history of at most 100 entries, the newest last, and per-key counters
    decide when an alert is due. The timestamp of an entry is a parameter. */
module StateMgr {
  import opened Common

  /** One history entry: `{"timestamp": ..., "state": state}`. */
  datatype Entry = Entry(timestamp: string, state: map<string, Value>)

  /** How many entries the history keeps. */
  const HistoryCap := 100

  ghost predicate SuffixOf<T>(a: seq<T>, b: seq<T>)
  {
    |a| <= |b| && a == b[|b| - |a|..]
  }

  /** The history after appending `e`: the oldest entry is dropped once
      there are more than `HistoryCap`. */
  function Appended<T>(history: seq<T>, e: T): (h: seq<T>)
    ensures |history| <= HistoryCap ==> |h| <= HistoryCap
    ensures |h| > 0 && h[|h| - 1] == e
    ensures |history| <= HistoryCap ==> |h| == if |history| < HistoryCap then |history| + 1 else HistoryCap
  {
    var longer := history + [e];
    if |longer| > HistoryCap then longer[1..] else longer
  }

  /** The history after recording `entries` in turn, starting from `h`. */
  function Recorded<T>(h: seq<T>, entries: seq<T>): seq<T>
    decreases |entries|
  {
    if entries == [] then h else Appended(Recorded(h, entries[..|entries| - 1]), entries[|entries| - 1])
  }

  /** The last `HistoryCap` of `s` (all of it when shorter). */
  function LastAtMost<T>(s: seq<T>): seq<T>
  {
    if |s| <= HistoryCap then s else s[|s| - HistoryCap..]
  }

  /** What is kept is the newest part of the history followed by `e`. */
  lemma AppendedKeepsNewest<T>(history: seq<T>, e: T)
    ensures SuffixOf(Appended(history, e), history + [e])
  {
  }

  lemma AppendedShort<T>(h: seq<T>, e: T)
    requires |h| < HistoryCap
    ensures Appended(h, e) == h + [e]
  {
  }

  lemma AppendedFull<T>(h: seq<T>, e: T)
    requires |h| == HistoryCap
    ensures Appended(h, e) == (h + [e])[1..]
  {
  }

  lemma NewestAfterDrop<T>(init: seq<T>, e: T)
    requires |init| >= HistoryCap
    ensures (init[|init| - HistoryCap..] + [e])[1..] == (init + [e])[|init| + 1 - HistoryCap..]
  {
  }

  /** From an empty history, the recorded history is exactly the newest 100
      entries in the order they came: first in, first out. */
  lemma {:induction false} RecordedKeepsNewest<T>(entries: seq<T>)
    ensures Recorded<T>([], entries) == LastAtMost(entries)
    decreases |entries|
  {
    if entries != [] {
      var init := entries[..|entries| - 1];
      var e := entries[|entries| - 1];
      RecordedKeepsNewest(init);
      var kept := LastAtMost(init);
      assert Recorded<T>([], entries) == Appended(kept, e);
      if |entries| <= HistoryCap {
        AppendedShort(init, e);
        assert init + [e] == entries;
      } else {
        assert kept == init[|init| - HistoryCap..];
        AppendedFull(kept, e);
        NewestAfterDrop(init, e);
        assert init + [e] == entries;
      }
    }
  }

  /** `item["state"].get(key) == value`. */
  predicate Matches(e: Entry, key: string, value: Value)
  {
    PyEq(Get(e.state, key, VNone), value)
  }

  /** The length of the longest run of newest entries whose `key` equals
      `value`. */
  function Run(history: seq<Entry>, key: string, value: Value): (n: nat)
    ensures n <= |history|
    decreases |history|
  {
    if history == [] || !Matches(history[|history| - 1], key, value) then 0
    else 1 + Run(history[..|history| - 1], key, value)
  }

  /** The run is a suffix of matching entries, and the entry before it (if
      any) does not match: it is the longest such suffix. */
  lemma {:induction false} RunIsLongestSuffix(history: seq<Entry>, key: string, value: Value)
    ensures forall j :: |history| - Run(history, key, value) <= j < |history| ==> Matches(history[j], key, value)
    ensures Run(history, key, value) < |history| ==>
      !Matches(history[|history| - Run(history, key, value) - 1], key, value)
    decreases |history|
  {
    if history != [] && Matches(history[|history| - 1], key, value) {
      var init := history[..|history| - 1];
      RunIsLongestSuffix(init, key, value);
      assert forall j :: 0 <= j < |init| ==> init[j] == history[j];
    }
  }

  /** `alert_count.get(key, 0)`. */
  function AlertCount(counts: map<string, int>, key: string): int
  {
    if key in counts then counts[key] else 0
  }

  /** The counters after `n` alerts for `key`, one after another. */
  function Alerted(counts: map<string, int>, key: string, n: nat): map<string, int>
  {
    if n == 0 then counts else Alerted(counts, key, n - 1)[key := AlertCount(Alerted(counts, key, n - 1), key) + 1]
  }

  /** After a reset and `n` alerts the counter for the key is `n`, and every
      other counter is untouched: with threshold t, the t-th alert after a
      reset is the first that fires. */
  lemma {:induction false} AlertsAfterReset(counts: map<string, int>, key: string, n: nat)
    ensures AlertCount(Alerted(counts[key := 0], key, n), key) == n
    ensures forall k :: k != key ==> AlertCount(Alerted(counts[key := 0], key, n), k) == AlertCount(counts, k)
  {
    if n > 0 {
      AlertsAfterReset(counts, key, n - 1);
    }
  }

  class StateManager {
    var currentState: map<string, Value>
    var history: seq<Entry>
    var alertCount: map<string, int>

    /** The history never holds more than `HistoryCap` entries. */
    ghost predicate Valid()
      reads this
    {
      |history| <= HistoryCap
    }

    constructor ()
      ensures Valid()
      ensures currentState == map[] && history == [] && alertCount == map[]
    {
      currentState := map[];
      history := [];
      alertCount := map[];
    }

    /** `update_state`: the state becomes current and is appended to the
        history, dropping the oldest entry past 100. */
    method UpdateState(state: map<string, Value>, timestamp: string)
      requires Valid()
      modifies this
      ensures Valid()
      ensures currentState == state
      ensures history == Appended(old(history), Entry(timestamp, state))
      ensures alertCount == old(alertCount)
    {
      currentState := state;
      history := history + [Entry(timestamp, state)];
      if |history| > HistoryCap {
        history := history[1..];
      }
    }

    /** `get_consecutive_count`: walk the history from the newest entry and
        count while the key holds the value. */
    method GetConsecutiveCount(key: string, value: Value) returns (count: nat)
      ensures count == Run(history, key, value)
    {
      count := 0;
      var i := |history|;
      assert history[..i] == history;
      while i > 0
        invariant 0 <= i <= |history| && count == |history| - i
        invariant Run(history, key, value) == count + Run(history[..i], key, value)
      {
        if !Matches(history[i - 1], key, value) {
          assert history[..i][i - 1] == history[i - 1];
          return;
        }
        assert history[..i][..i - 1] == history[..i - 1];
        count := count + 1;
        i := i - 1;
      }
    }

    /** `should_alert`: count one more occurrence of the key and report
        whether the count has reached the threshold. */
    method ShouldAlert(alertKey: string, threshold: int) returns (due: bool)
      modifies this`alertCount
      ensures alertCount == old(alertCount)[alertKey := AlertCount(old(alertCount), alertKey) + 1]
      ensures due <==> AlertCount(old(alertCount), alertKey) + 1 >= threshold
    {
      var current := AlertCount(alertCount, alertKey);
      alertCount := alertCount[alertKey := current + 1];
      return alertCount[alertKey] >= threshold;
    }

    /** `reset_alert_count`. */
    method ResetAlertCount(alertKey: string)
      modifies this`alertCount
      ensures alertCount == old(alertCount)[alertKey := 0]
    {
      alertCount := alertCount[alertKey := 0];
    }
  }
}
