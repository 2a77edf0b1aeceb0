/*
 * The completion frequency store: an in-memory table from suggestion name to
 * acceptance count, loaded once from the host's key-value storage and saved
 * back with a trailing debounce, plus the decorator that counts an accepted
 * suggestion before running its own insertion behaviour.
 *
 * Every operation is specified twice: as a pure step function over
 * `StoreState` (what the lemmas talk about) and as a method of the class
 * `Store` (the object the source mutates in place), whose postcondition ties
 * the new state to the step function applied to the old one.
 */
module CompletionFrequency {

  datatype Option<T> = None | Some(value: T)

  /** The key under which the table is loaded and saved. */
  const StorageKey: string := "completion-frequency"

  /** Label (a completion's display name) -> number of accepted completions with that name. */
  type Table = map<string, nat>

  /** A handle returned by the host's `setTimeout`. */
  type TimerHandle = nat

  /** Opaque stand-ins for values the store only passes along. */
  type ViewId = nat
  type CallbackId = nat
  type FieldValue = nat

  /** What the host's `loadData` resolves to, as far as the load step can tell. */
  datatype StoredValue =
    | Undefined
    | Null
    | Primitive            // a number, string or boolean: `typeof` is not "object"
    | Object(entries: Table)

  /** The settled `loadData` promise. */
  datatype LoadReply = Resolved(value: StoredValue) | Rejected

  /** One call of the host's `saveData(key, value)`. */
  datatype SaveRecord = SaveRecord(key: string, snapshot: Table)

  /**
   * The whole state the store's behaviour depends on: its three fields, the
   * host timers it has scheduled and neither cancelled nor seen fire, the
   * next handle the host will issue, and the log of writes to storage.
   */
  datatype StoreState = StoreState(
    freq: Table,
    loaded: bool,
    saveTimer: Option<TimerHandle>,
    armed: set<TimerHandle>,
    nextHandle: TimerHandle,
    saves: seq<SaveRecord>)

  // ---------------------------------------------------------------------------
  // Counter table

  /** The count of `name`, absent names counting as 0. */
  function CountOf(t: Table, name: string): nat
  {
    if name in t then t[name] else 0
  }

  /** The table with `name`'s count raised by one. */
  function Bump(t: Table, name: string): (r: Table)
    ensures r.Keys == t.Keys + {name}
    ensures forall other :: CountOf(r, other) == CountOf(t, other) + (if other == name then 1 else 0)
  {
    t[name := CountOf(t, name) + 1]
  }

  /** The table after `increment` was called with each of `names` in turn. */
  function BumpAll(t: Table, names: seq<string>): Table
    decreases |names|
  {
    if names == [] then t
    else BumpAll(if names[0] == "" then t else Bump(t, names[0]), names[1..])
  }

  lemma {:induction false} BumpAllCounts(t: Table, names: seq<string>, name: string)
    ensures name != "" ==> CountOf(BumpAll(t, names), name) == CountOf(t, name) + multiset(names)[name]
    ensures name == "" ==> CountOf(BumpAll(t, names), name) == CountOf(t, name)
    decreases |names|
  {
    if names != [] {
      var t' := if names[0] == "" then t else Bump(t, names[0]);
      BumpAllCounts(t', names[1..], name);
      assert names == [names[0]] + names[1..];
      assert multiset(names) == multiset{names[0]} + multiset(names[1..]);
    }
  }

  // ---------------------------------------------------------------------------
  // Persistence state machine

  function Initial(): StoreState
  {
    StoreState(map[], false, None, {}, 1, [])
  }

  /** The timers a handle slot refers to. */
  function Held(timer: Option<TimerHandle>): set<TimerHandle>
  {
    if timer.Some? then {timer.value} else {}
  }

  /**
   * The invariant of every reachable state: the timer slot holds an issued
   * handle, the only timer that can still fire is the one in the slot, and
   * before the load has completed no timer was scheduled and nothing was saved.
   */
  predicate Inv(s: StoreState)
  {
    && (s.saveTimer.Some? ==> s.saveTimer.value < s.nextHandle)
    && s.armed <= Held(s.saveTimer)
    && (!s.loaded ==> s.saveTimer == None && s.saves == [])
  }

  /** `load`: adopt a stored object, then mark the store loaded; a rejection changes nothing. */
  function LoadStep(s: StoreState, reply: LoadReply): StoreState
  {
    match reply
    case Rejected => s
    case Resolved(v) =>
      s.(freq := if v.Object? then v.entries else s.freq, loaded := true)
  }

  /** `scheduleSave`: once loaded, cancel the held timer and arm a fresh one. */
  function ScheduleStep(s: StoreState): StoreState
  {
    if !s.loaded then s
    else s.(armed := s.armed - Held(s.saveTimer) + {s.nextHandle},
            saveTimer := Some(s.nextHandle),
            nextHandle := s.nextHandle + 1)
  }

  /** `increment`: ignore the empty name, else count it and schedule a save. */
  function IncrementStep(s: StoreState, name: string): StoreState
  {
    if name == "" then s
    else ScheduleStep(s.(freq := Bump(s.freq, name)))
  }

  /** `flush`: write a full snapshot of the table under the storage key. */
  function FlushStep(s: StoreState): StoreState
  {
    s.(saves := s.saves + [SaveRecord(StorageKey, s.freq)])
  }

  /** The host fires timer `h`: if it is still armed, its callback flushes. */
  function FireStep(s: StoreState, h: TimerHandle): StoreState
  {
    if h in s.armed then FlushStep(s.(armed := s.armed - {h})) else s
  }

  /** `increment` called with each of `names` in turn, no timer firing in between. */
  function AcceptAll(s: StoreState, names: seq<string>): StoreState
    decreases |names|
  {
    if names == [] then s else AcceptAll(IncrementStep(s, names[0]), names[1..])
  }

  /** Everything that can happen to a store, in the order it happens. */
  datatype Event = Accept(name: string) | Fire(handle: TimerHandle) | Settle(reply: LoadReply)

  function Step(s: StoreState, e: Event): StoreState
  {
    match e
    case Accept(name) => IncrementStep(s, name)
    case Fire(h) => FireStep(s, h)
    case Settle(reply) => LoadStep(s, reply)
  }

  function Run(s: StoreState, events: seq<Event>): StoreState
    decreases |events|
  {
    if events == [] then s else Run(Step(s, events[0]), events[1..])
  }

  /** The names of the accept events, in order. */
  function AcceptedNames(events: seq<Event>): seq<string>
    decreases |events|
  {
    if events == [] then []
    else (if events[0].Accept? then [events[0].name] else []) + AcceptedNames(events[1..])
  }

  predicate LoadsData(e: Event)
  {
    e.Settle? && e.reply.Resolved?
  }

  lemma InitialInv()
    ensures Inv(Initial())
    ensures forall name :: CountOf(Initial().freq, name) == 0
  {
  }

  lemma StepPreservesInv(s: StoreState, e: Event)
    requires Inv(s)
    ensures Inv(Step(s, e))
  {
  }

  lemma {:induction false} RunPreservesInv(s: StoreState, events: seq<Event>)
    requires Inv(s)
    ensures Inv(Run(s, events))
    decreases |events|
  {
    if events != [] {
      StepPreservesInv(s, events[0]);
      RunPreservesInv(Step(s, events[0]), events[1..]);
    }
  }

  /** At most one save is ever pending. */
  lemma AtMostOnePending(s: StoreState)
    requires Inv(s)
    ensures |s.armed| <= 1
    ensures s.armed != {} ==> s.saveTimer.Some? && s.armed == {s.saveTimer.value}
  {
  }

  /**
   * Until a load resolves, whatever is accepted and whatever timer fires,
   * nothing is scheduled and nothing reaches storage, while the table still
   * counts every accepted name.
   */
  lemma {:induction false} NoSaveBeforeLoad(s: StoreState, events: seq<Event>)
    requires Inv(s) && !s.loaded
    requires forall i :: 0 <= i < |events| ==> !LoadsData(events[i])
    ensures !Run(s, events).loaded
    ensures Run(s, events).armed == {} && Run(s, events).saveTimer == None
    ensures Run(s, events).saves == []
    ensures Run(s, events).freq == BumpAll(s.freq, AcceptedNames(events))
    decreases |events|
  {
    if events != [] {
      StepPreservesInv(s, events[0]);
      assert !LoadsData(events[0]);
      NoSaveBeforeLoad(Step(s, events[0]), events[1..]);
      var rest := AcceptedNames(events[1..]);
      if events[0].Accept? {
        var names := [events[0].name] + rest;
        assert AcceptedNames(events) == names;
        assert names[0] == events[0].name && names[1..] == rest;
      } else {
        assert AcceptedNames(events) == rest;
      }
    }
  }

  /** Before the load, an increment counts the name and leaves the timer state alone. */
  lemma IncrementBeforeLoad(s: StoreState, name: string)
    requires !s.loaded
    ensures IncrementStep(s, name) == s.(freq := BumpAll(s.freq, [name]))
  {
  }

  /** Once loaded, an increment of a real name leaves exactly one fresh timer pending. */
  lemma IncrementAfterLoad(s: StoreState, name: string)
    requires Inv(s) && s.loaded && name != ""
    ensures var r := IncrementStep(s, name);
      && r.freq == Bump(s.freq, name)
      && r.saveTimer == Some(s.nextHandle) && r.armed == {s.nextHandle}
      && r.armed !! s.armed
      && r.saves == s.saves
  {
  }

  /**
   * A burst of increments once loaded: the table has every increment, nothing
   * was saved yet, and, if one name was not empty, exactly one timer is
   * pending and it is none of the timers pending before the burst.
   */
  lemma {:induction false} BurstLeavesOneTimer(s: StoreState, names: seq<string>)
    requires Inv(s) && s.loaded
    ensures var r := AcceptAll(s, names);
      && Inv(r) && r.loaded
      && r.freq == BumpAll(s.freq, names)
      && r.saves == s.saves
      && r.nextHandle >= s.nextHandle
    ensures (forall i :: 0 <= i < |names| ==> names[i] == "") ==> AcceptAll(s, names) == s
    ensures (exists i :: 0 <= i < |names| && names[i] != "") ==>
      var r := AcceptAll(s, names);
      && r.saveTimer.Some? && r.armed == {r.saveTimer.value}
      && r.saveTimer.value >= s.nextHandle && r.armed !! s.armed
    decreases |names|
  {
    if names != [] {
      var s1 := IncrementStep(s, names[0]);
      StepPreservesInv(s, Accept(names[0]));
      assert Step(s, Accept(names[0])) == s1;
      BurstLeavesOneTimer(s1, names[1..]);
      var r := AcceptAll(s, names);
      assert r == AcceptAll(s1, names[1..]);
      if exists i :: 0 <= i < |names| && names[i] != "" {
        if names[0] != "" {
          assert s1.armed == {s.nextHandle};
          if !exists i :: 0 <= i < |names[1..]| && names[1..][i] != "" {
            assert r == s1;
          }
        } else {
          var i :| 0 <= i < |names| && names[i] != "";
          assert names[1..][i - 1] != "";
        }
      } else {
        assert names[0] == "";
        forall i | 0 <= i < |names[1..]| ensures names[1..][i] == "" {
          assert names[i + 1] == "";
        }
      }
    }
  }

  /**
   * The debounce contract: after a burst of increments, firing the pending
   * timer writes exactly one snapshot holding every increment of the burst;
   * no other timer writes anything, before or after.
   */
  lemma BurstThenFireSavesOnce(s: StoreState, names: seq<string>)
    requires Inv(s) && s.loaded
    requires exists i :: 0 <= i < |names| && names[i] != ""
    ensures AcceptAll(s, names).saveTimer.Some?
    ensures var r := AcceptAll(s, names);
      var h := r.saveTimer.value;
      && FireStep(r, h).saves == s.saves + [SaveRecord(StorageKey, BumpAll(s.freq, names))]
      && FireStep(r, h).armed == {}
      && (forall other :: other != h ==> FireStep(r, other) == r)
      && (forall next :: FireStep(FireStep(r, h), next) == FireStep(r, h))
  {
    BurstLeavesOneTimer(s, names);
  }

  /** The table after a burst, before or after the load, has each name's count raised by its number of occurrences. */
  lemma BurstCounts(s: StoreState, names: seq<string>, name: string)
    requires name != ""
    ensures CountOf(AcceptAll(s, names).freq, name) == CountOf(s.freq, name) + multiset(names)[name]
  {
    AcceptAllFreq(s, names);
    BumpAllCounts(s.freq, names, name);
  }

  /** Whether loaded or not, a burst of increments changes the table as `BumpAll` does. */
  lemma {:induction false} AcceptAllFreq(s: StoreState, names: seq<string>)
    ensures AcceptAll(s, names).freq == BumpAll(s.freq, names)
    decreases |names|
  {
    if names != [] {
      AcceptAllFreq(IncrementStep(s, names[0]), names[1..]);
    }
  }

  /** Two bursts in a row are one burst: successive `Store.Invoke` calls compose. */
  lemma {:induction false} AcceptAllAppend(s: StoreState, a: seq<string>, b: seq<string>)
    ensures AcceptAll(AcceptAll(s, a), b) == AcceptAll(s, a + b)
    decreases |a|
  {
    if a == [] {
      assert a + b == b;
    } else {
      AcceptAllAppend(IncrementStep(s, a[0]), a[1..], b);
      assert (a + b)[1..] == a[1..] + b;
    }
  }

  /** `load` adopts the stored table exactly when storage held an object, and marks the store loaded. */
  lemma LoadAdoptsObjects(s: StoreState, reply: LoadReply)
    ensures reply.Resolved? && reply.value.Object? ==> LoadStep(s, reply).freq == reply.value.entries
    ensures reply.Resolved? && !reply.value.Object? ==> LoadStep(s, reply).freq == s.freq
    ensures LoadStep(s, reply).loaded <==> s.loaded || reply.Resolved?
    ensures reply.Rejected? ==> LoadStep(s, reply) == s
    ensures LoadStep(s, reply).saves == s.saves && LoadStep(s, reply).armed == s.armed
    ensures LoadStep(s, reply).saveTimer == s.saveTimer && LoadStep(s, reply).nextHandle == s.nextHandle
  {
  }

  // ---------------------------------------------------------------------------
  // Wrapping a completion

  /**
   * The `apply` of a completion: absent, a literal insertion text, a
   * callback of the completion engine, or a counting handler built by
   * `Wrap` (which, being a function, is itself a callback to a second wrap).
   */
  datatype Apply =
    | Absent
    | Literal(text: string)
    | Callback(fn: CallbackId)
    | Counting(name: string, original: Apply)

  datatype Completion = Completion(name: string, apply: Apply, fields: map<string, FieldValue>)

  /** What running an `apply` amounts to for the editor. */
  datatype Outcome =
    | CalledFn(fn: CallbackId, view: ViewId, obj: Completion, from: int, to: int)
    | Dispatch(view: ViewId, from: int, to: int, insert: string)

  /** `wrapCompletion`: a copy whose `apply` counts the wrap-time name, then runs the original. */
  function Wrap(c: Completion): (w: Completion)
    ensures w.(apply := c.apply) == c
    ensures w.apply.Counting? && w.apply.name == c.name && w.apply.original == c.apply
  {
    c.(apply := Counting(c.name, c.apply))
  }

  /** The names a counting handler increments, in order: its own, then those of wrapped handlers it calls. */
  function CountedLabels(name: string, original: Apply): (r: seq<string>)
    ensures |r| >= 1 && r[0] == name
    ensures !original.Counting? ==> r == [name]
    decreases original
  {
    [name] + (if original.Counting? then CountedLabels(original.name, original.original) else [])
  }

  /** What a counting handler with `original` does once it has counted. */
  function Reaction(original: Apply, view: ViewId, obj: Completion, from: int, to: int): (out: Outcome)
    ensures out.Dispatch? ==> out.view == view && out.from == from && out.to == to
    ensures out.CalledFn? ==> out.view == view && out.obj == obj && out.from == from && out.to == to
  {
    match original
    case Callback(fn) => CalledFn(fn, view, obj, from, to)
    case Counting(_, inner) => Reaction(inner, view, obj, from, to)
    case Literal(text) => Dispatch(view, from, to, text)
    case Absent => Dispatch(view, from, to, obj.name)
  }

  /**
   * The three routes of a wrapped completion's `apply`: it counts the name
   * the completion had when it was wrapped, then calls the original callback
   * with the same arguments, inserts the original text over [from, to), or
   * inserts the name of the object it is invoked with.
   */
  lemma WrappedApplyRoutes(c: Completion, view: ViewId, obj: Completion, from: int, to: int)
    requires !c.apply.Counting?
    ensures var h := Wrap(c).apply;
      CountedLabels(h.name, h.original) == [c.name]
    ensures var h := Wrap(c).apply;
      var out := Reaction(h.original, view, obj, from, to);
      && (c.apply.Callback? ==> out == CalledFn(c.apply.fn, view, obj, from, to))
      && (c.apply.Literal? ==> out == Dispatch(view, from, to, c.apply.text))
      && (c.apply.Absent? ==> out == Dispatch(view, from, to, obj.name))
  {
  }

  /**
   * Accepting a wrapped completion raises the wrap-time name's count by one
   * (unless it is empty) and no other count; the fallback route inserts the
   * invocation-time name even when that name is another one.
   */
  lemma AcceptWrapped(s: StoreState, c: Completion, view: ViewId, obj: Completion, from: int, to: int)
    requires !c.apply.Counting?
    ensures var h := Wrap(c).apply;
      var r := AcceptAll(s, CountedLabels(h.name, h.original));
      && CountOf(r.freq, c.name) == CountOf(s.freq, c.name) + (if c.name == "" then 0 else 1)
      && (forall other :: other != c.name ==> CountOf(r.freq, other) == CountOf(s.freq, other))
      && r.saves == s.saves
    ensures c.apply.Absent? ==>
      Reaction(Wrap(c).apply.original, view, obj, from, to).insert == obj.name
  {
  }

  /** Wrapping a wrapped completion counts both wrap-time names and keeps the innermost route. */
  lemma WrapTwice(c: Completion, view: ViewId, obj: Completion, from: int, to: int)
    ensures var h := Wrap(Wrap(c)).apply;
      && CountedLabels(h.name, h.original) == [c.name] + CountedLabels(c.name, c.apply)
      && Reaction(h.original, view, obj, from, to) == Reaction(c.apply, view, obj, from, to)
  {
  }

  // ---------------------------------------------------------------------------
  // The store object

  class Store {
    var freq: Table
    var saveTimer: Option<TimerHandle>
    var loaded: bool

    /** The host's side: timers this store armed and that neither were cleared nor fired. */
    var armed: set<TimerHandle>
    /** The host's side: the handle the next `setTimeout` returns. */
    var nextHandle: TimerHandle
    /** The host's side: every `saveData` call, oldest first. */
    ghost var saves: seq<SaveRecord>

    ghost function State(): StoreState
      reads this
    {
      StoreState(freq, loaded, saveTimer, armed, nextHandle, saves)
    }

    ghost predicate Valid()
      reads this
    {
      Inv(State())
    }

    constructor ()
      ensures State() == Initial() && Valid()
    {
      freq := map[];
      saveTimer := None;
      loaded := false;
      armed := {};
      nextHandle := 1;
      saves := [];
    }

    /** `load`, given how the host's `loadData` settled. */
    method Load(reply: LoadReply) returns (ok: bool)
      requires Valid()
      modifies this
      ensures Valid()
      ensures State() == LoadStep(old(State()), reply)
      ensures ok <==> reply.Resolved?
    {
      match reply
      case Rejected =>
        ok := false;
      case Resolved(stored) =>
        if stored.Object? {
          freq := stored.entries;
        }
        loaded := true;
        ok := true;
    }

    /** `getCount`: the stored count, or 0 for a name not in the table. */
    function GetCount(name: string): (n: nat)
      reads this
      ensures name in freq ==> n == freq[name]
      ensures name !in freq ==> n == 0
    {
      CountOf(freq, name)
    }

    method Increment(name: string)
      requires Valid()
      modifies this
      ensures Valid()
      ensures State() == IncrementStep(old(State()), name)
    {
      if name == "" {
        return;
      }
      freq := freq[name := GetCount(name) + 1];
      ScheduleSave();
    }

    method ScheduleSave()
      requires Valid()
      modifies this
      ensures Valid()
      ensures State() == ScheduleStep(old(State()))
    {
      if !loaded {
        return;
      }
      if saveTimer.Some? {
        armed := armed - {saveTimer.value};    // clearTimeout
      }
      saveTimer := Some(nextHandle);           // setTimeout
      armed := armed + {nextHandle};
      nextHandle := nextHandle + 1;
    }

    method Flush()
      modifies this
      ensures State() == FlushStep(old(State()))
    {
      saves := saves + [SaveRecord(StorageKey, freq)];
    }

    /** The host fires timer `h`; it reports whether a callback of this store ran. */
    method FireTimer(h: TimerHandle) returns (fired: bool)
      requires Valid()
      modifies this
      ensures Valid()
      ensures State() == FireStep(old(State()), h)
      ensures fired <==> h in old(armed)
    {
      fired := h in armed;
      if fired {
        armed := armed - {h};
        Flush();
      }
    }

    /**
     * The counting handler `Counting(name, original)` invoked by the editor
     * with `(view, obj, from, to)`.
     */
    method Invoke(name: string, original: Apply, view: ViewId, obj: Completion, from: int, to: int)
      returns (out: Outcome)
      requires Valid()
      modifies this
      decreases original
      ensures Valid()
      ensures State() == AcceptAll(old(State()), CountedLabels(name, original))
      ensures !original.Counting? ==> State() == IncrementStep(old(State()), name)
      ensures out == Reaction(original, view, obj, from, to)
    {
      Increment(name);
      match original
      case Callback(fn) =>
        out := CalledFn(fn, view, obj, from, to);
      case Counting(inner, innerOriginal) =>
        out := Invoke(inner, innerOriginal, view, obj, from, to);
      case Literal(text) =>
        out := Dispatch(view, from, to, text);
      case Absent =>
        out := Dispatch(view, from, to, obj.name);
    }
  }

  /** A fresh store, a load with nothing stored, three acceptances of "alpha" and one of "beta". */
  method AcceptanceScenario()
  {
    var store := new Store();
    var ok := store.Load(Resolved(Undefined));
    var alpha := Wrap(Completion("alpha", Absent, map[]));
    var beta := Wrap(Completion("beta", Literal("beta()"), map[]));
    var out := store.Invoke(alpha.apply.name, alpha.apply.original, 0, alpha, 0, 2);
    assert out == Dispatch(0, 0, 2, "alpha");
    out := store.Invoke(alpha.apply.name, alpha.apply.original, 0, alpha, 0, 2);
    out := store.Invoke(alpha.apply.name, alpha.apply.original, 0, alpha, 0, 2);
    assert store.GetCount("alpha") == 3 && store.GetCount("beta") == 0;
    out := store.Invoke(beta.apply.name, beta.apply.original, 0, beta, 5, 8);
    assert out == Dispatch(0, 5, 8, "beta()");
    assert store.GetCount("alpha") == 3 && store.GetCount("beta") == 1 && store.GetCount("gamma") == 0;
  }



  /** Two acceptances after the load, then the timer fires: one save holding both. */
  method DebouncedSaveScenario()
  {
    var store := new Store();
    var out := store.Invoke("alpha", Absent, 0, Completion("alpha", Absent, map[]), 0, 2);
    assert store.State() == StoreState(map["alpha" := 1], false, None, {}, 1, []);
    var ok := store.Load(Resolved(Undefined));
    out := store.Invoke("alpha", Absent, 0, Completion("alpha", Absent, map[]), 0, 2);
    assert store.State() == StoreState(map["alpha" := 2], true, Some(1), {1}, 2, []);
    out := store.Invoke("beta", Absent, 0, Completion("beta", Absent, map[]), 3, 3);
    assert store.State() == StoreState(map["alpha" := 2, "beta" := 1], true, Some(2), {2}, 3, []);
    var fired := store.FireTimer(1);
    assert !fired;
    fired := store.FireTimer(2);
    assert fired && store.saves == [SaveRecord(StorageKey, map["alpha" := 2, "beta" := 1])];
  }
}
