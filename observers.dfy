/** Path observers: createMatcher's string pattern kinds, and the body of the
    deferred emit callback that decides which observer listeners run, for
    which path, in what order, and where stopPropagation cuts the run. */
module Observers {
  import opened Common
  import opened Paths
  import opened Navigation

  /** A matcher made by createMatcher: exact path, or a fragment suffix. */
  datatype Pattern = Exact(text: string) | Suffix(text: string)

  /** The pattern argument given to journey.observe: a string, or a value
      that is neither a string nor a RegExp. */
  datatype PatternValue = StringPattern(s: string) | OtherPattern

  /** createMatcher: a '#'-prefixed string matches paths ending with it, any
      other string only that exact path, and anything else is a TypeError. */
  function CreateMatcher(v: PatternValue): (r: Result<Pattern>)
    ensures v.OtherPattern? ==> r == Err(InvalidPattern)
    ensures v.StringPattern? ==> r.Ok? && r.value.text == v.s && (r.value.Suffix? <==> IsFragment(v.s))
  {
    match v
    case OtherPattern => Err(InvalidPattern)
    case StringPattern(s) => if IsFragment(s) then Ok(Suffix(s)) else Ok(Exact(s))
  }

  /** Whether the matcher returns its listener for `path`. */
  predicate Matches(p: Pattern, path: string): (b: bool)
    ensures b ==> |p.text| <= |path|
    ensures p.Exact? ==> (b <==> path == p.text)
    ensures p.Suffix? ==> (b <==> |p.text| <= |path| && path[|path| - |p.text|..] == p.text)
  {
    match p
    case Exact(t) => path == t
    case Suffix(t) => EndsWith(path, t)
  }

  /** What an observer registered with a string pattern responds to. */
  lemma ObserverMatching(s: string, path: string)
    ensures var p := CreateMatcher(StringPattern(s)).value;
      && (IsFragment(s) ==> (Matches(p, path) <==> exists prefix: string :: prefix + s == path))
      && (!IsFragment(s) ==> (Matches(p, path) <==> path == s))
  {
    EndsWithIffConcat(path, s);
  }

  /** An observer for a fragment sees a here/visit to that fragment, whatever
      the pathname; isHere with a string is the exact matcher. */
  lemma FragmentObserverSeesVisit(n: Nav, h: string, pathname: string)
    requires IsFragment(h)
    ensures Matches(CreateMatcher(StringPattern(h)).value, Resolve(pathname, h))
    ensures IsHere(n, h) <==> Matches(Exact(h), n.path)
  {
  }

  /** A registered observer; its listener is described by whether it calls
      stopPropagation when called for the current path (with `true`) and when
      called for the previous path (with `false`). */
  datatype Observer = Observer(pattern: Pattern, stopsOnCurrent: bool, stopsOnPrevious: bool)

  /** One call made while dispatching: observer `observer`'s listener with the
      given flag, or the emitter receiving the event. */
  datatype Call = Listener(observer: nat, current: bool) | Emitter(kind: EventKind)

  /** emit's `!previous`: a null or empty previous path counts as none. */
  predicate HasPrevious(previous: Option<string>): (b: bool)
    ensures b <==> previous != None && previous != Some("")
  {
    previous.Some? && previous.value != ""
  }

  /** Which observers a pass over the list calls: those matching the current
      path, or those that do not match it but match the previous path. */
  datatype Selection = ForCurrent(path: string) | ForPrevious(path: string, previous: string)

  predicate Selects(sel: Selection, o: Observer)
  {
    match sel
    case ForCurrent(path) => Matches(o.pattern, path)
    case ForPrevious(path, previous) => !Matches(o.pattern, path) && Matches(o.pattern, previous)
  }

  /** The indices from `from` on of the observers the selection picks, in
      registration order. */
  function Picked(obs: seq<Observer>, sel: Selection, from: nat): (r: seq<nat>)
    ensures forall k :: 0 <= k < |r| ==> from <= r[k] < |obs|
    decreases |obs| - from
  {
    if from >= |obs| then []
    else if Selects(sel, obs[from]) then
      [from] + Picked(obs, sel, from + 1)
    else Picked(obs, sel, from + 1)
  }

  /** Picked holds only observers the selection picks, in registration order. */
  lemma {:induction false} PickedSound(obs: seq<Observer>, sel: Selection, from: nat)
    ensures forall k :: 0 <= k < |Picked(obs, sel, from)| ==> Selects(sel, obs[Picked(obs, sel, from)[k]])
    ensures forall a, b :: 0 <= a < b < |Picked(obs, sel, from)| ==> Picked(obs, sel, from)[a] < Picked(obs, sel, from)[b]
    decreases |obs| - from
  {
    if from < |obs| {
      PickedSound(obs, sel, from + 1);
      var rest := Picked(obs, sel, from + 1);
      if Selects(sel, obs[from]) {
        var r := [from] + rest;
        assert Picked(obs, sel, from) == r;
        assert forall k :: 0 < k < |r| ==> r[k] == rest[k - 1];
      } else {
        assert Picked(obs, sel, from) == rest;
      }
    }
  }

  /** Picked misses no observer the selection picks. */
  lemma {:induction false} PickedComplete(obs: seq<Observer>, sel: Selection, from: nat, j: nat)
    requires from <= j < |obs| && Selects(sel, obs[j])
    ensures j in Picked(obs, sel, from)
    decreases j - from
  {
    if from < j {
      PickedComplete(obs, sel, from + 1, j);
    }
  }

  /** Whether observer `i`'s listener stops propagation when called with
      flag `current` (no observer at `i` stops nothing). */
  predicate Stops(obs: seq<Observer>, i: nat, current: bool)
  {
    i < |obs| && (if current then obs[i].stopsOnCurrent else obs[i].stopsOnPrevious)
  }

  /** Calling the listeners `idx` in order with flag `current` until one
      stops propagation. */
  function Run(obs: seq<Observer>, idx: seq<nat>, current: bool): seq<Call>
  {
    if idx == [] then []
    else if Stops(obs, idx[0], current) then [Listener(idx[0], current)]
    else [Listener(idx[0], current)] + Run(obs, idx[1..], current)
  }

  /** A run is a prefix of its listeners, every call but the last was to a
      listener that did not stop, and it is cut short only right after one
      that did. */
  lemma {:induction false} RunShape(obs: seq<Observer>, idx: seq<nat>, current: bool)
    ensures var r := Run(obs, idx, current);
      && |r| <= |idx|
      && (forall k :: 0 <= k < |r| ==> r[k] == Listener(idx[k], current))
      && (forall k :: 0 <= k < |r| - 1 ==> !Stops(obs, idx[k], current))
      && (|r| < |idx| ==> |r| > 0 && Stops(obs, idx[|r| - 1], current))
  {
    if idx != [] && !Stops(obs, idx[0], current) {
      RunShape(obs, idx[1..], current);
    }
  }

  /** Every listener before the first one that stops is reached. */
  lemma RunReaches(obs: seq<Observer>, idx: seq<nat>, current: bool, k: nat)
    requires k < |idx|
    requires forall m :: 0 <= m < k ==> !Stops(obs, idx[m], current)
    ensures Listener(idx[k], current) in Run(obs, idx, current)
  {
    var r := Run(obs, idx, current);
    RunShape(obs, idx, current);
    assert r[k] == Listener(idx[k], current);
  }

  /** The calls the emit callback makes for one event, as a definition: with
      no previous path, the current-path run; otherwise the previous-path run
      followed by the current-path run with the stop flag reset; the emitter
      last in either case. */
  function Dispatched(obs: seq<Observer>, path: string, previous: Option<string>, kind: EventKind): (r: seq<Call>)
    ensures |r| > 0 && r[|r| - 1] == Emitter(kind)
  {
    var entering := Run(obs, Picked(obs, ForCurrent(path), 0), true);
    if HasPrevious(previous) then
      Run(obs, Picked(obs, ForPrevious(path, previous.value), 0), false) + entering + [Emitter(kind)]
    else
      entering + [Emitter(kind)]
  }

  /** The body of the callback emit schedules. */
  method Dispatch(obs: seq<Observer>, path: string, previous: Option<string>, kind: EventKind)
    returns (calls: seq<Call>)
    ensures calls == Dispatched(obs, path, previous, kind)
  {
    if !HasPrevious(previous) {
      calls := CallMatching(obs, path);
    } else {
      var listeners;
      calls, listeners := CallLeaving(obs, path, previous.value);
      if |listeners| > 0 {
        var entered := CallListeners(obs, listeners);
        calls := calls + entered;
      } else {
        assert Run(obs, listeners, true) == [];
      }
    }
    calls := calls + [Emitter(kind)];
  }

  /** The loop for an event with no previous path: each observer matching
      the current path, in order, until a listener stops propagation. */
  method CallMatching(obs: seq<Observer>, path: string) returns (calls: seq<Call>)
    ensures calls == Run(obs, Picked(obs, ForCurrent(path), 0), true)
  {
    calls := [];
    var index := 0;
    var stopped := false;
    while index < |obs|
      invariant 0 <= index <= |obs|
      invariant calls + Run(obs, Picked(obs, ForCurrent(path), index), true) == Run(obs, Picked(obs, ForCurrent(path), 0), true)
    {
      var o := obs[index];
      if Matches(o.pattern, path) {
        calls := calls + [Listener(index, true)];
        if o.stopsOnCurrent {
          stopped := true;
        }
        if stopped {
          break;
        }
      }
      index := index + 1;
    }
  }

  /** The first loop for an event with a previous path: collects the
      listeners for the current path and, until one stops propagation, calls
      those for the previous path of observers the current path misses. */
  method CallLeaving(obs: seq<Observer>, path: string, previous: string)
    returns (calls: seq<Call>, listeners: seq<nat>)
    ensures calls == Run(obs, Picked(obs, ForPrevious(path, previous), 0), false)
    ensures listeners == Picked(obs, ForCurrent(path), 0)
  {
    calls, listeners := [], [];
    var index := 0;
    var stopped := false;
    while index < |obs|
      invariant 0 <= index <= |obs|
      invariant listeners + Picked(obs, ForCurrent(path), index) == Picked(obs, ForCurrent(path), 0)
      invariant !stopped ==>
        calls + Run(obs, Picked(obs, ForPrevious(path, previous), index), false)
          == Run(obs, Picked(obs, ForPrevious(path, previous), 0), false)
      invariant stopped ==> calls == Run(obs, Picked(obs, ForPrevious(path, previous), 0), false)
    {
      var o := obs[index];
      if Matches(o.pattern, path) {
        listeners := listeners + [index];
      } else if !stopped {
        if Matches(o.pattern, previous) {
          calls := calls + [Listener(index, false)];
          if o.stopsOnPrevious {
            stopped := true;
          }
        }
      }
      index := index + 1;
    }
  }

  /** The second loop: the collected listeners, with the stop flag reset,
      called for the current path until one stops propagation. */
  method CallListeners(obs: seq<Observer>, listeners: seq<nat>) returns (calls: seq<Call>)
    requires forall k :: 0 <= k < |listeners| ==> listeners[k] < |obs|
    ensures calls == Run(obs, listeners, true)
  {
    calls := [];
    var index := 0;
    var stopped := false;
    while index < |listeners|
      invariant 0 <= index <= |listeners|
      invariant calls + Run(obs, listeners[index..], true) == Run(obs, listeners, true)
    {
      var i := listeners[index];
      assert listeners[index..] == [i] + listeners[index + 1..];
      calls := calls + [Listener(i, true)];
      if obs[i].stopsOnCurrent {
        stopped := true;
      }
      if stopped {
        break;
      }
      index := index + 1;
    }
  }

  /** The emitter receives the event last, and only then. */
  lemma EmitterLast(obs: seq<Observer>, path: string, previous: Option<string>, kind: EventKind)
    ensures var c := Dispatched(obs, path, previous, kind);
      && |c| > 0 && c[|c| - 1] == Emitter(kind)
      && forall k :: 0 <= k < |c| - 1 ==> c[k].Listener?
  {
    var idx := Picked(obs, ForCurrent(path), 0);
    var entering := Run(obs, idx, true);
    RunShape(obs, idx, true);
    assert forall k :: 0 <= k < |entering| ==> entering[k].Listener?;
    if HasPrevious(previous) {
      RunShape(obs, Picked(obs, ForPrevious(path, previous.value), 0), false);
      var leaving := Run(obs, Picked(obs, ForPrevious(path, previous.value), 0), false);
      assert forall k :: 0 <= k < |leaving| ==> leaving[k].Listener?;
      var c := leaving + entering + [Emitter(kind)];
      assert forall k :: 0 <= k < |c| - 1 ==> c[k] == (leaving + entering)[k];
    }
  }

  /** The listener runs that make up a dispatch: the previous-path run
      (empty without a previous path) and the current-path run. */
  function LeavingRun(obs: seq<Observer>, path: string, previous: Option<string>): seq<Call>
  {
    if HasPrevious(previous) then Run(obs, Picked(obs, ForPrevious(path, previous.value), 0), false) else []
  }

  function EnteringRun(obs: seq<Observer>, path: string): seq<Call>
  {
    Run(obs, Picked(obs, ForCurrent(path), 0), true)
  }

  /** Facts about the two runs of a dispatch, gathered once for the lemmas below. */
  lemma DispatchedParts(obs: seq<Observer>, path: string, previous: Option<string>, kind: EventKind)
    ensures Dispatched(obs, path, previous, kind)
         == LeavingRun(obs, path, previous) + EnteringRun(obs, path) + [Emitter(kind)]
    ensures var l := LeavingRun(obs, path, previous);
      && (!HasPrevious(previous) ==> l == [])
      && (forall k :: 0 <= k < |l| ==>
            && l[k].Listener? && !l[k].current && l[k].observer < |obs|
            && Selects(ForPrevious(path, previous.value), obs[l[k].observer]))
      && (forall a, b :: 0 <= a < b < |l| ==> l[a].observer < l[b].observer)
      && (forall k :: 0 <= k < |l| - 1 ==> !Stops(obs, l[k].observer, false))
    ensures var e := EnteringRun(obs, path);
      && (forall k :: 0 <= k < |e| ==>
            && e[k].Listener? && e[k].current && e[k].observer < |obs|
            && Matches(obs[e[k].observer].pattern, path))
      && (forall a, b :: 0 <= a < b < |e| ==> e[a].observer < e[b].observer)
      && (forall k :: 0 <= k < |e| - 1 ==> !Stops(obs, e[k].observer, true))
  {
    PickedSound(obs, ForCurrent(path), 0);
    RunShape(obs, Picked(obs, ForCurrent(path), 0), true);
    if HasPrevious(previous) {
      PickedSound(obs, ForPrevious(path, previous.value), 0);
      RunShape(obs, Picked(obs, ForPrevious(path, previous.value), 0), false);
    }
  }

  /** Every listener called is one whose observer matches the path it is
      called for; in particular an observer matching the current path is
      never called for the previous path. */
  lemma CallsAreSelected(obs: seq<Observer>, path: string, previous: Option<string>, kind: EventKind)
    ensures var c := Dispatched(obs, path, previous, kind);
      forall k :: 0 <= k < |c| && c[k].Listener? ==>
        && c[k].observer < |obs|
        && (c[k].current ==> Matches(obs[c[k].observer].pattern, path))
        && (!c[k].current ==>
              && HasPrevious(previous)
              && !Matches(obs[c[k].observer].pattern, path)
              && Matches(obs[c[k].observer].pattern, previous.value))
  {
    DispatchedParts(obs, path, previous, kind);
    var l, e := LeavingRun(obs, path, previous), EnteringRun(obs, path);
    var c := Dispatched(obs, path, previous, kind);
    forall k | 0 <= k < |c| && c[k].Listener?
      ensures c[k].observer < |obs|
      ensures c[k].current ==> Matches(obs[c[k].observer].pattern, path)
      ensures !c[k].current ==>
              && HasPrevious(previous)
              && !Matches(obs[c[k].observer].pattern, path)
              && Matches(obs[c[k].observer].pattern, previous.value)
    {
      if k < |l| {
        assert c[k] == l[k];
      } else {
        assert c[k] == e[k - |l|];
      }
    }
  }

  /** All previous-path calls come before all current-path calls, and within
      each pass listeners are called in registration order. */
  lemma CallsInOrder(obs: seq<Observer>, path: string, previous: Option<string>, kind: EventKind)
    ensures var c := Dispatched(obs, path, previous, kind);
      forall a, b :: 0 <= a < b < |c| && c[a].Listener? && c[b].Listener? ==>
        && (c[a].current ==> c[b].current)
        && (c[a].current == c[b].current ==> c[a].observer < c[b].observer)
  {
    DispatchedParts(obs, path, previous, kind);
    var l, e := LeavingRun(obs, path, previous), EnteringRun(obs, path);
    var c := Dispatched(obs, path, previous, kind);
    forall a, b | 0 <= a < b < |c| && c[a].Listener? && c[b].Listener?
      ensures c[a].current ==> c[b].current
      ensures c[a].current == c[b].current ==> c[a].observer < c[b].observer
    {
      if b < |l| {
        assert c[a] == l[a] && c[b] == l[b];
      } else if a < |l| {
        assert c[a] == l[a] && c[b] == e[b - |l|];
      } else {
        assert c[a] == e[a - |l|] && c[b] == e[b - |l|];
      }
    }
  }

  /** stopPropagation ends its pass: after a listener that stops, no later
      listener of the same pass is called. */
  lemma StopEndsPass(obs: seq<Observer>, path: string, previous: Option<string>, kind: EventKind)
    ensures var c := Dispatched(obs, path, previous, kind);
      forall k, m :: 0 <= k < m < |c| && c[k].Listener? && Stops(obs, c[k].observer, c[k].current) ==>
        !(c[m].Listener? && c[m].current == c[k].current)
  {
    DispatchedParts(obs, path, previous, kind);
    var l, e := LeavingRun(obs, path, previous), EnteringRun(obs, path);
    var c := Dispatched(obs, path, previous, kind);
    forall k, m | 0 <= k < m < |c| && c[k].Listener? && Stops(obs, c[k].observer, c[k].current)
      ensures !(c[m].Listener? && c[m].current == c[k].current)
    {
      if k < |l| {
        assert c[k] == l[k];
        assert k == |l| - 1;
        if m < |l| + |e| {
          assert c[m] == e[m - |l|];
        } else {
          assert c[m] == Emitter(kind);
        }
      } else {
        assert c[k] == e[k - |l|];
        assert k - |l| == |e| - 1;
        assert c[m] == Emitter(kind);
      }
    }
  }

  /** Every observer matching the current path is called with `true` unless
      an earlier observer matching the current path stopped propagation. */
  lemma CurrentListenerReached(obs: seq<Observer>, path: string, previous: Option<string>, kind: EventKind, i: nat)
    requires i < |obs| && Matches(obs[i].pattern, path)
    requires forall j :: 0 <= j < i && Matches(obs[j].pattern, path) ==> !obs[j].stopsOnCurrent
    ensures Listener(i, true) in Dispatched(obs, path, previous, kind)
  {
    var idx := Picked(obs, ForCurrent(path), 0);
    PickedComplete(obs, ForCurrent(path), 0, i);
    PickedSound(obs, ForCurrent(path), 0);
    var k :| 0 <= k < |idx| && idx[k] == i;
    forall m | 0 <= m < k
      ensures !Stops(obs, idx[m], true)
    {
      assert idx[m] < idx[k];
    }
    RunReaches(obs, idx, true, k);
    DispatchedParts(obs, path, previous, kind);
  }

  /** With a previous path, every observer that misses the current path but
      matches the previous one is called with `false` unless an earlier such
      observer stopped propagation. */
  lemma PreviousListenerReached(obs: seq<Observer>, path: string, previous: Option<string>, kind: EventKind, i: nat)
    requires HasPrevious(previous)
    requires i < |obs| && !Matches(obs[i].pattern, path) && Matches(obs[i].pattern, previous.value)
    requires forall j :: 0 <= j < i && !Matches(obs[j].pattern, path) && Matches(obs[j].pattern, previous.value)
               ==> !obs[j].stopsOnPrevious
    ensures Listener(i, false) in Dispatched(obs, path, previous, kind)
  {
    var sel := ForPrevious(path, previous.value);
    var idx := Picked(obs, sel, 0);
    PickedComplete(obs, sel, 0, i);
    PickedSound(obs, sel, 0);
    var k :| 0 <= k < |idx| && idx[k] == i;
    forall m | 0 <= m < k
      ensures !Stops(obs, idx[m], false)
    {
      assert idx[m] < idx[k];
    }
    RunReaches(obs, idx, false, k);
    DispatchedParts(obs, path, previous, kind);
  }

  /** The stop flag is reset between the passes: the current-path calls and
      the emitter are exactly those of a dispatch with no previous path, and
      everything before them is a previous-path call. */
  lemma CurrentPassIgnoresPrevious(obs: seq<Observer>, path: string, previous: Option<string>, kind: EventKind)
    ensures var full := Dispatched(obs, path, previous, kind);
      var plain := Dispatched(obs, path, None, kind);
      && |plain| <= |full|
      && full[|full| - |plain|..] == plain
      && forall k :: 0 <= k < |full| - |plain| ==> full[k].Listener? && !full[k].current
  {
    DispatchedParts(obs, path, previous, kind);
    DispatchedParts(obs, path, None, kind);
    var l := LeavingRun(obs, path, previous);
    var full := Dispatched(obs, path, previous, kind);
    var plain := Dispatched(obs, path, None, kind);
    assert full == l + plain;
    assert full[|l|..] == plain;
  }
}
