/** The shared deadline watchdog of src/file_session.cc: one list of armed sessions, pruned and
    compacted in place by every pass of the watchdog thread. Times are nanoseconds. */
module Watchdog {
  import opened Basics

  const MAX_SLEEP: int := 1_000_000_000
  const MIN_SLEEP: int := 1_000_000

  /** An armed session; `id` numbers the calls of Arm and stands for the weak reference. */
  datatype Entry = Entry(id: nat, deadline: int)

  /** What a pass finds behind a weak reference: nothing, a completed session, or a live one. */
  datatype Found = Gone | Completed | Running

  /** What becomes of entry e when it is found as f at time now. */
  datatype Fate = Dropped | Expired | Kept

  function FateOf(e: Entry, f: Found, now: int): Fate {
    if f != Running then Dropped else if e.deadline <= now then Expired else Kept
  }

  /** The entries with the given fate, in order. */
  function Select(entries: seq<Entry>, found: seq<Found>, now: int, fate: Fate): (r: seq<Entry>)
    requires |entries| == |found|
  {
    if entries == [] then [] else
    var n := |entries| - 1;
    Select(entries[..n], found[..n], now, fate)
      + (if FateOf(entries[n], found[n], now) == fate then [entries[n]] else [])
  }

  /** Earliest of `limit` and the entries' deadlines. */
  function Earliest(entries: seq<Entry>, limit: int): (t: int)
    ensures t <= limit && forall i :: 0 <= i < |entries| ==> t <= entries[i].deadline
    ensures t == limit || exists i :: 0 <= i < |entries| && t == entries[i].deadline
  {
    if entries == [] then limit else
    var n := |entries| - 1;
    Min(Earliest(entries[..n], limit), entries[n].deadline)
  }

  function Clamp(wait: int): int {
    Min(Max(wait, MIN_SLEEP), MAX_SLEEP)
  }

  lemma {:induction false} SelectMember(entries: seq<Entry>, found: seq<Found>, now: int, fate: Fate, e: Entry)
    requires |entries| == |found|
    ensures e in Select(entries, found, now, fate) <==>
            exists i :: 0 <= i < |entries| && entries[i] == e && FateOf(entries[i], found[i], now) == fate
  {
    if entries != [] {
      var n := |entries| - 1;
      SelectMember(entries[..n], found[..n], now, fate, e);
      assert forall i :: 0 <= i < n ==> entries[..n][i] == entries[i] && found[..n][i] == found[i];
      if e in Select(entries[..n], found[..n], now, fate) {
        var i :| 0 <= i < n && entries[..n][i] == e && FateOf(entries[..n][i], found[..n][i], now) == fate;
        assert entries[i] == e && FateOf(entries[i], found[i], now) == fate;
      }
    }
  }

  /** Looking at one more entry. */
  lemma SelectOneMore(entries: seq<Entry>, found: seq<Found>, now: int, fate: Fate, i: nat)
    requires |entries| == |found| && i < |entries|
    ensures Select(entries[..i + 1], found[..i + 1], now, fate) ==
            Select(entries[..i], found[..i], now, fate)
              + if FateOf(entries[i], found[i], now) == fate then [entries[i]] else []
  {
    assert entries[..i + 1][..i] == entries[..i] && found[..i + 1][..i] == found[..i];
  }

  /** Moving entry i down to `out`, where it is the next one kept. */
  lemma KeptOneMore(entries: seq<Entry>, out: nat, i: nat, limit: int)
    requires out <= i < |entries|
    ensures Earliest(entries[out := entries[i]][..out + 1], limit) ==
            Min(Earliest(entries[..out], limit), entries[i].deadline)
  {
    var kept := entries[out := entries[i]][..out + 1];
    assert kept[..out] == entries[..out];
  }

  /** A pass in progress: entries up to `out` are the ones kept so far, those from i on have not been
      looked at. */
  ghost predicate Compacted(was: seq<Entry>, found: seq<Found>, now: int, i: nat,
                            entries: seq<Entry>, out: int, expired: seq<Entry>, next: int)
    requires |was| == |found| && i <= |was|
  {
    && 0 <= out <= i && |entries| == |was|
    && entries[i..] == was[i..]
    && entries[..out] == Select(was[..i], found[..i], now, Kept)
    && expired == Select(was[..i], found[..i], now, Expired)
    && next == Earliest(entries[..out], now + MAX_SLEEP)
  }

  lemma CompactLeaves(was: seq<Entry>, found: seq<Found>, now: int, i: nat,
                      entries: seq<Entry>, out: int, expired: seq<Entry>, next: int)
    requires |was| == |found| && i < |was| && Compacted(was, found, now, i, entries, out, expired, next)
    requires FateOf(was[i], found[i], now) != Kept
    ensures Compacted(was, found, now, i + 1, entries, out,
                      if FateOf(was[i], found[i], now) == Expired then expired + [was[i]] else expired, next)
  {
    SelectOneMore(was, found, now, Kept, i);
    SelectOneMore(was, found, now, Expired, i);
    assert entries[i + 1..] == entries[i..][1..] == was[i..][1..] == was[i + 1..];
  }

  lemma CompactKeeps(was: seq<Entry>, found: seq<Found>, now: int, i: nat,
                     entries: seq<Entry>, out: int, expired: seq<Entry>, next: int)
    requires |was| == |found| && i < |was| && Compacted(was, found, now, i, entries, out, expired, next)
    requires FateOf(was[i], found[i], now) == Kept && entries[i] == was[i]
    ensures Compacted(was, found, now, i + 1, entries[out := was[i]], out + 1, expired, Min(next, was[i].deadline))
  {
    SelectOneMore(was, found, now, Kept, i);
    SelectOneMore(was, found, now, Expired, i);
    KeptOneMore(entries, out, i, now + MAX_SLEEP);
    assert entries[i + 1..] == entries[i..][1..] == was[i..][1..] == was[i + 1..];
    var moved := entries[out := entries[i]];
    assert moved[..out + 1] == entries[..out] + [entries[i]];
    assert moved[i + 1..] == entries[i + 1..];
  }

  lemma CompactDone(was: seq<Entry>, found: seq<Found>, now: int,
                    entries: seq<Entry>, out: int, expired: seq<Entry>, next: int)
    requires |was| == |found| && Compacted(was, found, now, |was|, entries, out, expired, next)
    ensures entries[..out] == Select(was, found, now, Kept) && expired == Select(was, found, now, Expired)
    ensures next == Earliest(entries[..out], now + MAX_SLEEP)
  {
    assert was[..|was|] == was && found[..|was|] == found;
  }

  // ---- runs --------------------------------------------------------------------------------

  /** The list, and what became of the entries that left it: `fired` with the time of the pass,
      the others by id. */
  datatype State = State(entries: seq<Entry>, armed: nat, stop: bool,
                         fired: map<nat, Firing>, dropped: set<nat>, cleared: set<nat>)

  /** A timeout request: the entry's deadline and the time of the pass that made it. */
  datatype Firing = Firing(deadline: int, at: int)

  datatype Event = Arming(timeout: int, now: int) | Pass(now: int, found: seq<Found>) | ShutDown | Restart

  const IDLE := State([], 0, false, map[], {}, {})

  ghost function Ids(entries: seq<Entry>): set<nat> {
    set i | 0 <= i < |entries| :: entries[i].id
  }

  ghost function Fire(expired: seq<Entry>, now: int): map<nat, Firing> {
    map i: nat | i in Ids(expired) :: Firing(DeadlineOf(expired, i), now)
  }

  ghost function DeadlineOf(entries: seq<Entry>, id: nat): int
    requires id in Ids(entries)
  {
    var i :| 0 <= i < |entries| && entries[i].id == id;
    entries[i].deadline
  }

  /** One locked region; a pass after stop_ was set does not happen. */
  ghost function Step(s: State, e: Event): State {
    match e
    case Arming(timeout, now) =>
      if timeout <= 0 || s.stop then s
      else s.(entries := s.entries + [Entry(s.armed, now + timeout)], armed := s.armed + 1)
    case Pass(now, found) =>
      if s.stop || |found| != |s.entries| then s
      else s.(entries := Select(s.entries, found, now, Kept),
              fired := s.fired + Fire(Select(s.entries, found, now, Expired), now),
              dropped := s.dropped + Ids(Select(s.entries, found, now, Dropped)))
    case ShutDown => if s.stop then s else s.(stop := true, entries := [], cleared := s.cleared + Ids(s.entries))
    case Restart => s.(stop := false)
  }

  ghost function Play(events: seq<Event>): State {
    if events == [] then IDLE else Step(Play(events[..|events| - 1]), events[|events| - 1])
  }

  ghost function UpTo(n: nat): (s: set<nat>)
    ensures forall i: nat :: i in s <==> i < n
  {
    if n == 0 then {} else UpTo(n - 1) + {n - 1}
  }

  /** Every armed entry has exactly one fate; the fired ones fired no earlier than their deadline. */
  ghost predicate Accounted(s: State) {
    && (forall i, j :: 0 <= i < j < |s.entries| ==> s.entries[i].id < s.entries[j].id)
    && Ids(s.entries) !! s.fired.Keys !! s.dropped !! s.cleared
    && Ids(s.entries) + s.fired.Keys + s.dropped + s.cleared == UpTo(s.armed)
    && (forall id :: id in s.fired ==> s.fired[id].deadline <= s.fired[id].at)
  }

  lemma {:induction false} SelectKeepsOrder(entries: seq<Entry>, found: seq<Found>, now: int, fate: Fate)
    requires |entries| == |found|
    requires forall i, j :: 0 <= i < j < |entries| ==> entries[i].id < entries[j].id
    ensures var kept := Select(entries, found, now, fate);
            forall i, j :: 0 <= i < j < |kept| ==> kept[i].id < kept[j].id
  {
    if entries != [] {
      var n := |entries| - 1;
      SelectKeepsOrder(entries[..n], found[..n], now, fate);
      var kept := Select(entries[..n], found[..n], now, fate);
      forall i | 0 <= i < |kept| ensures kept[i].id < entries[n].id {
        SelectMember(entries[..n], found[..n], now, fate, kept[i]);
      }
    }
  }

  lemma SelectIds(entries: seq<Entry>, found: seq<Found>, now: int, fate: Fate, id: nat)
    requires |entries| == |found|
    ensures id in Ids(Select(entries, found, now, fate)) <==>
            exists i :: 0 <= i < |entries| && entries[i].id == id && FateOf(entries[i], found[i], now) == fate
  {
    var chosen := Select(entries, found, now, fate);
    if id in Ids(chosen) {
      var k :| 0 <= k < |chosen| && chosen[k].id == id;
      SelectMember(entries, found, now, fate, chosen[k]);
    }
    if i :| 0 <= i < |entries| && entries[i].id == id && FateOf(entries[i], found[i], now) == fate {
      SelectMember(entries, found, now, fate, entries[i]);
      var k :| 0 <= k < |chosen| && chosen[k] == entries[i];
      assert chosen[k].id == id;
    }
  }

  /** The ids of a list split by fate, without overlap. */
  lemma SelectSplits(entries: seq<Entry>, found: seq<Found>, now: int)
    requires |entries| == |found|
    requires forall i, j :: 0 <= i < j < |entries| ==> entries[i].id < entries[j].id
    ensures var kept, expired, dropped := Ids(Select(entries, found, now, Kept)),
              Ids(Select(entries, found, now, Expired)), Ids(Select(entries, found, now, Dropped));
            kept + expired + dropped == Ids(entries) && kept !! expired !! dropped
  {
    var kept, expired, dropped := Ids(Select(entries, found, now, Kept)),
      Ids(Select(entries, found, now, Expired)), Ids(Select(entries, found, now, Dropped));
    forall id: nat
      ensures id in Ids(entries) <==> id in kept || id in expired || id in dropped
      ensures !(id in kept && id in expired) && !(id in kept && id in dropped) && !(id in expired && id in dropped)
    {
      SelectIds(entries, found, now, Kept, id);
      SelectIds(entries, found, now, Expired, id);
      SelectIds(entries, found, now, Dropped, id);
    }
  }

  lemma FiresWhenDue(entries: seq<Entry>, found: seq<Found>, now: int, id: nat)
    requires |entries| == |found| && id in Ids(Select(entries, found, now, Expired))
    ensures DeadlineOf(Select(entries, found, now, Expired), id) <= now
  {
    var expired := Select(entries, found, now, Expired);
    forall k | 0 <= k < |expired| ensures expired[k].deadline <= now {
      SelectMember(entries, found, now, Expired, expired[k]);
    }
  }

  lemma PassAccounted(s: State, now: int, found: seq<Found>)
    requires Accounted(s) && !s.stop && |found| == |s.entries|
    ensures Accounted(Step(s, Pass(now, found)))
  {
    SelectKeepsOrder(s.entries, found, now, Kept);
    SelectSplits(s.entries, found, now);
    var expired := Select(s.entries, found, now, Expired);
    forall id | id in Ids(expired) ensures Fire(expired, now)[id].deadline <= now {
      FiresWhenDue(s.entries, found, now, id);
    }
    assert Fire(expired, now).Keys == Ids(expired);
  }

  lemma ArmAccounted(s: State, timeout: int, now: int)
    requires Accounted(s) && !s.stop && timeout > 0
    ensures Accounted(Step(s, Arming(timeout, now)))
  {
    var s' := Step(s, Arming(timeout, now));
    forall i | 0 <= i < |s.entries| ensures s.entries[i].id < s.armed {
      assert s.entries[i].id in Ids(s.entries);
    }
    forall id: nat ensures id in Ids(s'.entries) <==> id in Ids(s.entries) || id == s.armed {
      if id in Ids(s.entries) {
        var i :| 0 <= i < |s.entries| && s.entries[i].id == id;
        assert s'.entries[i].id == id;
      }
      assert s'.entries[|s.entries|].id == s.armed;
    }
  }

  /** The deadlines set by the calls of Arm that took effect, by id. */
  ghost function Deadlines(events: seq<Event>): seq<int> {
    if events == [] then [] else
    var before, e := events[..|events| - 1], events[|events| - 1];
    Deadlines(before) + if e.Arming? && e.timeout > 0 && !Play(before).stop then [e.now + e.timeout] else []
  }

  /** Entries and firings carry the deadlines of their own Arm. */
  ghost predicate KeepsDeadlines(s: State, deadlines: seq<int>) {
    && |deadlines| == s.armed
    && (forall i :: 0 <= i < |s.entries| ==>
          s.entries[i].id < s.armed && s.entries[i].deadline == deadlines[s.entries[i].id])
    && (forall id :: id in s.fired ==> id < s.armed && s.fired[id].deadline == deadlines[id])
  }

  lemma PassKeepsDeadlines(s: State, now: int, found: seq<Found>, deadlines: seq<int>)
    requires KeepsDeadlines(s, deadlines) && !s.stop && |found| == |s.entries|
    ensures KeepsDeadlines(Step(s, Pass(now, found)), deadlines)
  {
    var s' := Step(s, Pass(now, found));
    forall i | 0 <= i < |s'.entries|
      ensures s'.entries[i].id < s.armed && s'.entries[i].deadline == deadlines[s'.entries[i].id]
    {
      SelectMember(s.entries, found, now, Kept, s'.entries[i]);
    }
    var expired := Select(s.entries, found, now, Expired);
    forall id | id in Ids(expired) ensures id < s.armed && DeadlineOf(expired, id) == deadlines[id] {
      var i :| 0 <= i < |expired| && expired[i].id == id && expired[i].deadline == DeadlineOf(expired, id);
      SelectMember(s.entries, found, now, Expired, expired[i]);
    }
  }

  lemma {:induction false} DeadlinesKept(events: seq<Event>)
    ensures KeepsDeadlines(Play(events), Deadlines(events))
  {
    if events != [] {
      var before, e := events[..|events| - 1], events[|events| - 1];
      DeadlinesKept(before);
      if e.Pass? && !Play(before).stop && |e.found| == |Play(before).entries| {
        PassKeepsDeadlines(Play(before), e.now, e.found, Deadlines(before));
      }
    }
  }

  /** The k-th event is a pass that takes place, and finds entry id in this condition. */
  ghost predicate FoundAt(events: seq<Event>, k: nat, id: nat, f: Found)
    requires k < |events|
  {
    var s, e := Play(events[..k]), events[k];
    && e.Pass? && !s.stop && |e.found| == |s.entries|
    && exists i :: 0 <= i < |s.entries| && s.entries[i].id == id && e.found[i] == f
  }

  /** The k-th event is the shutdown that clears entry id. */
  ghost predicate ClearedAt(events: seq<Event>, k: nat, id: nat)
    requires k < |events|
  {
    var s := Play(events[..k]);
    events[k].ShutDown? && !s.stop && id in Ids(s.entries)
  }

  /** Each entry left the list for a reason: dropped when a pass found it gone or completed, fired
      when a pass at that time found it running, cleared by a shutdown. */
  ghost predicate HasReasons(events: seq<Event>, s: State) {
    && (forall id :: id in s.dropped ==>
          exists k: nat :: k < |events| && (FoundAt(events, k, id, Gone) || FoundAt(events, k, id, Completed)))
    && (forall id :: id in s.fired ==>
          exists k: nat :: k < |events| && FoundAt(events, k, id, Running) && events[k].now == s.fired[id].at)
    && (forall id :: id in s.cleared ==> exists k: nat :: k < |events| && ClearedAt(events, k, id))
  }

  /** What happened in a run has happened in every longer run. */
  lemma {:induction false} EarlierEvent(events: seq<Event>, k: nat)
    requires k < |events| - 1
    ensures var before := events[..|events| - 1];
            && before[k] == events[k] && before[..k] == events[..k]
  {
  }

  lemma {:induction false} EarlierReasons(events: seq<Event>, s: State)
    requires events != [] && HasReasons(events[..|events| - 1], s)
    ensures HasReasons(events, s)
  {
    hide Play;
    var before := events[..|events| - 1];
    forall id | id in s.dropped
      ensures exists k: nat :: k < |events| && (FoundAt(events, k, id, Gone) || FoundAt(events, k, id, Completed))
    {
      var k: nat :| k < |before| && (FoundAt(before, k, id, Gone) || FoundAt(before, k, id, Completed));
      EarlierEvent(events, k);
      assert FoundAt(events, k, id, Gone) || FoundAt(events, k, id, Completed);
    }
    forall id | id in s.fired
      ensures exists k: nat :: k < |events| && FoundAt(events, k, id, Running) && events[k].now == s.fired[id].at
    {
      var k: nat :| k < |before| && FoundAt(before, k, id, Running) && before[k].now == s.fired[id].at;
      EarlierEvent(events, k);
      assert FoundAt(events, k, id, Running);
    }
    forall id | id in s.cleared ensures exists k: nat :: k < |events| && ClearedAt(events, k, id) {
      var k: nat :| k < |before| && ClearedAt(before, k, id);
      EarlierEvent(events, k);
      assert ClearedAt(events, k, id);
    }
  }

  /** A pass has a reason for each entry it takes off the list. */
  lemma {:induction false} SelectedWasFound(events: seq<Event>, k: nat, fate: Fate, id: nat)
    requires k < |events| && events[k].Pass?
    requires !Play(events[..k]).stop && |events[k].found| == |Play(events[..k]).entries|
    requires id in Ids(Select(Play(events[..k]).entries, events[k].found, events[k].now, fate))
    ensures fate == Expired ==> FoundAt(events, k, id, Running)
    ensures fate == Dropped ==> FoundAt(events, k, id, Gone) || FoundAt(events, k, id, Completed)
  {
    var s, e := Play(events[..k]), events[k];
    var chosen := Select(s.entries, e.found, e.now, fate);
    var j :| 0 <= j < |chosen| && chosen[j].id == id;
    SelectMember(s.entries, e.found, e.now, fate, chosen[j]);
    var i :| 0 <= i < |s.entries| && s.entries[i] == chosen[j] && FateOf(s.entries[i], e.found[i], e.now) == fate;
    assert s.entries[i].id == id && FoundAt(events, k, id, e.found[i]);
  }

  lemma {:induction false} PassHasReasons(events: seq<Event>, now: int, found: seq<Found>)
    requires events != [] && events[|events| - 1] == Pass(now, found)
    requires HasReasons(events, Play(events[..|events| - 1]))
    ensures HasReasons(events, Play(events))
  {
    var n := |events| - 1;
    var s, s' := Play(events[..n]), Play(events);
    if !s.stop && |found| == |s.entries| {
      var expired, dropped := Select(s.entries, found, now, Expired), Select(s.entries, found, now, Dropped);
      forall id | id in s'.dropped && id !in s.dropped
        ensures FoundAt(events, n, id, Gone) || FoundAt(events, n, id, Completed)
      {
        SelectedWasFound(events, n, Dropped, id);
      }
      forall id | id in Ids(expired) ensures FoundAt(events, n, id, Running) && s'.fired[id].at == now {
        SelectedWasFound(events, n, Expired, id);
      }
    }
  }

  lemma {:induction false} ShutDownHasReasons(events: seq<Event>)
    requires events != [] && events[|events| - 1] == ShutDown
    requires HasReasons(events, Play(events[..|events| - 1]))
    ensures HasReasons(events, Play(events))
  {
    var n := |events| - 1;
    var s := Play(events[..n]);
    forall id | id in Play(events).cleared && id !in s.cleared ensures ClearedAt(events, n, id) {
    }
  }

  lemma {:induction false} ReasonsKept(events: seq<Event>)
    ensures HasReasons(events, Play(events))
  {
    if events != [] {
      var n := |events| - 1;
      ReasonsKept(events[..n]);
      EarlierReasons(events, Play(events[..n]));
      match events[n]
      case Pass(now, found) => PassHasReasons(events, now, found);
      case ShutDown => ShutDownHasReasons(events);
      case Arming(_, _) => FramedReasons(events);
      case Restart => FramedReasons(events);
    }
  }

  lemma {:induction false} FramedReasons(events: seq<Event>)
    requires events != [] && (events[|events| - 1].Arming? || events[|events| - 1].Restart?)
    requires HasReasons(events, Play(events[..|events| - 1]))
    ensures HasReasons(events, Play(events))
  {
    hide FoundAt, ClearedAt;
    var s, s' := Play(events[..|events| - 1]), Play(events);
    assert s'.fired == s.fired && s'.dropped == s.dropped && s'.cleared == s.cleared;
  }

  lemma {:induction false} FatesAccounted(events: seq<Event>)
    ensures Accounted(Play(events))
  {
    if events != [] {
      FatesAccounted(events[..|events| - 1]);
      var s := Play(events[..|events| - 1]);
      match events[|events| - 1]
      case Arming(timeout, now) => if timeout > 0 && !s.stop { ArmAccounted(s, timeout, now); }
      case Pass(now, found) => if !s.stop && |found| == |s.entries| { PassAccounted(s, now, found); }
      case ShutDown =>
      case Restart =>
    } else {
      assert Ids([]) == {};
    }
  }

  /** Over any run, each armed entry is in exactly one place: still waiting, fired once and not
      before the deadline its Arm set, dropped because its session was gone or completed, or cleared
      by ShutDown. */
  lemma EveryEntryHasOneFate(events: seq<Event>)
    ensures var s := Play(events);
            && Accounted(s) && KeepsDeadlines(s, Deadlines(events)) && HasReasons(events, s)
            && forall id :: id in s.fired ==> Deadlines(events)[id] <= s.fired[id].at
  {
    hide HasReasons;
    FatesAccounted(events);
    DeadlinesKept(events);
    ReasonsKept(events);
  }

  /** What has fired is no longer waiting, so that no pass finds it again. */
  lemma FiredStays(s: State, e: Event, id: nat)
    requires Accounted(s) && id in s.fired
    ensures id in Step(s, e).fired && Step(s, e).fired[id] == s.fired[id]
    ensures e.Pass? && |e.found| == |s.entries| ==> id !in Ids(Select(s.entries, e.found, e.now, Expired))
  {
    if e.Pass? && |e.found| == |s.entries| {
      SelectSplits(s.entries, e.found, e.now);
    }
  }

  /** Once an entry has fired, nothing in the rest of the run changes its record, and no later pass
      fires it again. */
  lemma {:induction false} FiredOnce(events: seq<Event>, more: seq<Event>, now: int, found: seq<Found>, id: nat)
    requires id in Play(events).fired && |found| == |Play(events + more).entries|
    ensures var s := Play(events + more);
            && id in s.fired && s.fired[id] == Play(events).fired[id]
            && id !in Ids(Select(s.entries, found, now, Expired))
    decreases |more|
  {
    hide Step, Accounted, Select;
    if more == [] {
      assert events + more == events;
    } else {
      var init := more[..|more| - 1];
      assert (events + more)[..|events + more| - 1] == events + init;
      var s := Play(events + init);
      FiredOnce(events, init, 0, seq(|s.entries|, _ => Gone), id);
      FatesAccounted(events + init);
      FiredStays(s, more[|more| - 1], id);
    }
    FatesAccounted(events + more);
    FiredStays(Play(events + more), Pass(now, found), id);
  }

  /** A pass that takes place decides on every entry: one found running is asked to time out now if its
      deadline has come and stays in the list if not, any other is dropped. */
  lemma {:induction false} PassDecides(events: seq<Event>, now: int, found: seq<Found>, i: nat)
    requires !Play(events).stop && |found| == |Play(events).entries| && i < |found|
    ensures var entry := Play(events).entries[i];
            var s := Play(events + [Pass(now, found)]);
            && (found[i] == Running && entry.deadline <= now ==>
                  entry.id in s.fired && s.fired[entry.id] == Firing(entry.deadline, now))
            && (found[i] == Running && now < entry.deadline ==> entry in s.entries)
            && (found[i] != Running ==> entry.id in s.dropped)
  {
    var s, entry := Play(events), Play(events).entries[i];
    assert (events + [Pass(now, found)])[..|events|] == events;
    var fate := FateOf(entry, found[i], now);
    var chosen := Select(s.entries, found, now, fate);
    SelectMember(s.entries, found, now, fate, entry);
    var j :| 0 <= j < |chosen| && chosen[j] == entry;
    assert chosen[j].id in Ids(chosen);
    if fate == Expired {
      FatesAccounted(events);
      SelectKeepsOrder(s.entries, found, now, Expired);
      OneDeadline(chosen, j);
    }
  }

  lemma OneDeadline(entries: seq<Entry>, j: nat)
    requires forall i, k :: 0 <= i < k < |entries| ==> entries[i].id < entries[k].id
    requires j < |entries|
    ensures entries[j].id in Ids(entries) && DeadlineOf(entries, entries[j].id) == entries[j].deadline
  {
    var id := entries[j].id;
    assert id in Ids(entries);
    var k :| 0 <= k < |entries| && entries[k].id == id && entries[k].deadline == DeadlineOf(entries, id);
    assert k == j;
  }

  /** An Arm with a positive timeout puts its session in the list unless a shutdown is under way; a
      shutdown empties the list, and until its end nothing is armed and no pass takes place. */
  lemma {:induction false} ArmingAndShutDown(events: seq<Event>, timeout: int, now: int, found: seq<Found>)
    ensures var s := Play(events);
            var armed, passed, down := Play(events + [Arming(timeout, now)]), Play(events + [Pass(now, found)]),
              Play(events + [ShutDown]);
            && (timeout > 0 && !s.stop ==> armed.entries == s.entries + [Entry(s.armed, now + timeout)])
            && (timeout <= 0 || s.stop ==> armed == s)
            && (s.stop ==> passed == s && down == s)
            && (!s.stop ==> down.entries == [] && down.stop)
            && !Play(events + [Restart]).stop
  {
    assert (events + [Arming(timeout, now)])[..|events|] == events;
    assert (events + [Pass(now, found)])[..|events|] == events;
    assert (events + [ShutDown])[..|events|] == events;
    assert (events + [Restart])[..|events|] == events;
  }

  // ---- the object --------------------------------------------------------------------------

  class SessionDeadlineWatchdog {
    var entries: seq<Entry>
    var armed: nat
    var started: bool
    var stop: bool
    ghost var fired: map<nat, Firing>
    ghost var dropped: set<nat>
    ghost var cleared: set<nat>

    ghost function View(): State
      reads this
    {
      State(entries, armed, stop, fired, dropped, cleared)
    }

    constructor ()
      ensures View() == IDLE && !started
    {
      entries, armed, started, stop := [], 0, false, false;
      fired, dropped, cleared := map[], {}, {};
    }

    /** Arm a session that starts now. */
    method Arm(timeout: int, now: int)
      modifies this
      ensures View() == Step(old(View()), Arming(timeout, now))
      ensures started == (old(started) || (timeout > 0 && !stop))
    {
      if timeout <= 0 {
        return;
      }
      var deadline := now + timeout;
      if stop {
        return;
      }
      entries := entries + [Entry(armed, deadline)];
      armed := armed + 1;
      started := true;
    }

    /** First half of ShutDown: tell the thread to stop and forget all entries. */
    method BeginShutDown() returns (first: bool)
      modifies this
      ensures View() == Step(old(View()), ShutDown)
      ensures first == !old(stop) && started == old(started)
    {
      if stop {
        return false;
      }
      stop := true;
      cleared := cleared + Ids(entries);
      entries := [];
      return true;
    }

    /** Second half, after the thread is joined: allow a later run in the same process. */
    method EndShutDown()
      modifies this`started, this`stop
      ensures View() == Step(old(View()), Restart) && !started
    {
      started := false;
      stop := false;
    }

    /** Compact the list in place, collect the expired sessions, and find the earliest deadline
        kept. */
    method Compact(now: int, found: seq<Found>) returns (expired: seq<Entry>, nextDeadline: int)
      requires |found| == |entries|
      modifies this`entries
      ensures entries == Select(old(entries), found, now, Kept)
      ensures expired == Select(old(entries), found, now, Expired)
      ensures nextDeadline == Earliest(entries, now + MAX_SLEEP)
    {
      ghost var was := entries;
      nextDeadline := now + MAX_SLEEP;
      expired := [];
      var out, i := 0, 0;
      while i < |entries|
        invariant i <= |was| && Compacted(was, found, now, i, entries, out, expired, nextDeadline)
      {
        assert entries[i] == entries[i..][0] == was[i..][0];
        if found[i] != Running {
          CompactLeaves(was, found, now, i, entries, out, expired, nextDeadline);
        } else if entries[i].deadline <= now {
          CompactLeaves(was, found, now, i, entries, out, expired, nextDeadline);
          expired := expired + [entries[i]];
        } else {
          CompactKeeps(was, found, now, i, entries, out, expired, nextDeadline);
          nextDeadline := Min(nextDeadline, entries[i].deadline);
          if out != i {
            entries := entries[out := entries[i]];
          } else {
            assert entries[out := was[i]] == entries;
          }
          out := out + 1;
        }
        i := i + 1;
      }
      CompactDone(was, found, now, entries, out, expired, nextDeadline);
      entries := entries[..out];
    }

    /** One pass of the thread under the lock. */
    method Prune(now: int, found: seq<Found>) returns (expired: seq<Entry>, nextDeadline: int)
      requires |found| == |entries| && !stop
      modifies this
      ensures View() == Step(old(View()), Pass(now, found))
      ensures expired == Select(old(entries), found, now, Expired)
      ensures nextDeadline == Earliest(entries, now + MAX_SLEEP)
    {
      ghost var was := entries;
      expired, nextDeadline := Compact(now, found);
      fired := fired + Fire(expired, now);
      dropped := dropped + Ids(Select(was, found, now, Dropped));
    }

    /** How long the thread sleeps once the expired sessions have been asked to time out. */
    static method WaitTime(nextDeadline: int, now: int) returns (wait: int)
      ensures wait == Clamp(nextDeadline - now)
    {
      wait := nextDeadline - now;
      if wait < MIN_SLEEP {
        wait := MIN_SLEEP;
      }
      if wait > MAX_SLEEP {
        wait := MAX_SLEEP;
      }
    }
  }

  /** The wait is the time left, brought into the range from 1 ms to 1 s. */
  lemma WaitExactly(left: int)
    ensures 1_000_000 <= left <= 1_000_000_000 ==> Clamp(left) == left
    ensures left < 1_000_000 ==> Clamp(left) == 1_000_000
    ensures left > 1_000_000_000 ==> Clamp(left) == 1_000_000_000
  {
  }

  /** The sleep after a pass that began at `now` and went to sleep at `later` is at most the larger
      of 1 ms and the smaller of 1 s and the time to each kept deadline. */
  lemma SleepIsShort(kept: seq<Entry>, now: int, later: int, i: nat)
    requires now <= later && i < |kept|
    ensures var wait := Clamp(Earliest(kept, now + MAX_SLEEP) - later);
            MIN_SLEEP <= wait <= Max(MIN_SLEEP, Min(MAX_SLEEP, kept[i].deadline - later))
  {
  }
}
