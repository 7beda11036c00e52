/** The tracker as the program has it: one object whose fields are the
    module-level variables, updated in place by each entry point. The host's
    history calls and the emitted events are appended to two logs; the
    observer list grows through Observe. Every method is tied to the
    transition of the same name in Navigation. */
module Session {
  import opened Common
  import opened Paths
  import opened States
  import opened Navigation
  import opened Observers

  class Journey {
    var path: string
    /** journey.origin: the path at load time, never updated. */
    const origin: string
    var state: State
    var depth: int
    const sessionId: int
    /** The calls made to history and location, oldest first. */
    var history: seq<HostCall>
    /** The events handed to emit, oldest first. */
    var emitted: seq<Event>
    /** The registered path observers, in registration order. */
    var observers: seq<Observer>

    /** The module-level variables as one value. */
    function Nav(): Navigation.Nav
      reads this
    {
      Navigation.Nav(path, state, depth, sessionId)
    }

    /** Module initialisation; `loadTime` is the Date.now() taken for the session id. */
    constructor (loadTime: int, env: Env)
      ensures Nav() == Start(loadTime, env).nav
      ensures history == Start(loadTime, env).host
      ensures origin == Start(loadTime, env).nav.path
      ensures emitted == [] && observers == []
    {
      sessionId := loadTime;
      path := GetPath(env.pathname, env.hash);
      origin := path;
      depth := 0;
      new;
      state := CreateState(None, env.now, depth, env.title, sessionId);
      history := [Write(ReplaceEntry, state, state.pageTitle, path)];
      emitted := [];
      observers := [];
    }

    /** emit(eventId, previous): captures the current path and state. */
    method Notify(kind: EventKind, previous: Option<string>)
      modifies this
      ensures emitted == old(emitted) + [Event(kind, path, state, previous)]
      ensures Nav() == old(Nav()) && history == old(history) && observers == old(observers)
    {
      emitted := emitted + [Event(kind, path, state, previous)];
    }

    method UpdatePath(target: string, given: Option<Patch>, isPush: bool, env: Env)
      modifies this
      ensures var r := Navigation.UpdatePath(old(Nav()), target, given, isPush, env);
        && Nav() == r.nav
        && history == old(history) + r.host
        && emitted == old(emitted) + r.events
        && observers == old(observers)
    {
      var p := target;
      if IsFragment(p) {
        p := GetPath(env.pathname, p);
      }
      if p != path {
        var previous := path;
        path := p;
        if isPush {
          depth := depth + 1;
        }
        state := CreateState(given, env.now, depth, env.title, sessionId);
        if isPush {
          history := history + [Write(PushEntry, state, state.pageTitle, p)];
          Notify(Push, Some(previous));
        } else {
          history := history + [Write(ReplaceEntry, state, state.pageTitle, p)];
          Notify(Set, Some(previous));
        }
      }
    }

    /** journey.here(path, state): replace the current entry. */
    method Here(target: string, given: Option<Patch>, env: Env)
      modifies this
      ensures var r := Navigation.UpdatePath(old(Nav()), target, given, false, env);
        Nav() == r.nav && history == old(history) + r.host && emitted == old(emitted) + r.events
      ensures observers == old(observers)
    {
      UpdatePath(target, given, false, env);
    }

    /** journey.visit(path, state): push a new entry. */
    method Visit(target: string, given: Option<Patch>, env: Env)
      modifies this
      ensures var r := Navigation.UpdatePath(old(Nav()), target, given, true, env);
        Nav() == r.nav && history == old(history) + r.host && emitted == old(emitted) + r.events
      ensures observers == old(observers)
    {
      UpdatePath(target, given, true, env);
    }

    /** Assigning journey.state. */
    method SetState(given: Option<Patch>, env: Env)
      modifies this
      ensures var r := Navigation.SetState(old(Nav()), given, env);
        Nav() == r.nav && history == old(history) + r.host && emitted == old(emitted) + r.events
      ensures observers == old(observers)
    {
      Here(path, given, env);
    }

    /** Assigning journey.depth: always throws. */
    method SetDepth(value: int) returns (r: Outcome)
      ensures r == Fail(DepthIsReadOnly)
    {
      r := Fail(DepthIsReadOnly);
    }

    /** journey.back(): `_depth > 0 && history.back()` evaluates to false
        when the depth is not positive, and otherwise to what history.back()
        returns, undefined; None stands for undefined. */
    method Back() returns (r: Option<bool>)
      modifies this
      ensures old(depth) > 0 ==> r == None
      ensures old(depth) <= 0 ==> r == Some(false)
      ensures history == old(history) + Navigation.Back(old(Nav())).host
      ensures Nav() == old(Nav()) && emitted == old(emitted) && observers == old(observers)
    {
      if depth > 0 {
        history := history + [GoBack];
        r := None;
      } else {
        r := Some(false);
      }
    }

    /** The popstate handler; `incoming` is the event's state, None for null. */
    method Popstate(incoming: Option<State>, env: Env)
      modifies this
      ensures var r := Navigation.Popstate(old(Nav()), incoming, env);
        && Nav() == r.nav
        && history == old(history) + r.host
        && emitted == old(emitted) + r.events
        && observers == old(observers)
    {
      var s: State;
      if incoming.None? {
        s := CreateState(None, env.now, depth, env.title, sessionId);
      } else if incoming.value.sessionId != sessionId {
        history := history + [Reload];
        return;
      } else {
        s := incoming.value;
      }
      var previous := path;
      path := GetPath(env.pathname, env.hash);
      state := s;
      var kind := if s.depth > depth then Push else Pop;
      depth := s.depth;
      Notify(kind, Some(previous));
    }

    /** journey.emit(eventId, state). */
    method Emit(id: string, given: Option<Patch>) returns (r: Outcome)
      modifies this
      ensures var step := Navigation.Emit(old(Nav()), id, given);
        && (step.Err? ==> r == Fail(step.error) && Nav() == old(Nav())
                          && history == old(history) && emitted == old(emitted))
        && (step.Ok? ==> r == Pass && Nav() == step.value.nav
                         && history == old(history) + step.value.host
                         && emitted == old(emitted) + step.value.events)
      ensures observers == old(observers)
    {
      var kind := ParseEvent(id);
      if kind.None? {
        return Fail(UnknownEvent(id));
      }
      if given.Some? {
        state := Assign(state, given.value);
        history := history + [Write(ReplaceEntry, state, state.pageTitle, path)];
      }
      Notify(kind.value, None);
      r := Pass;
    }

    /** journey.observe(pattern, listener): a listener is described by whether
        it stops propagation when called for the current and for the previous
        path. An invalid pattern throws and registers nothing. */
    method Observe(pattern: PatternValue, stopsOnCurrent: bool, stopsOnPrevious: bool) returns (r: Outcome)
      modifies this
      ensures var m := CreateMatcher(pattern);
        && (m.Err? ==> r == Fail(m.error) && observers == old(observers))
        && (m.Ok? ==> r == Pass && observers == old(observers) + [Observer(m.value, stopsOnCurrent, stopsOnPrevious)])
      ensures Nav() == old(Nav()) && history == old(history) && emitted == old(emitted)
    {
      var m := CreateMatcher(pattern);
      if m.Err? {
        return Fail(m.error);
      }
      observers := observers + [Observer(m.value, stopsOnCurrent, stopsOnPrevious)];
      r := Pass;
    }

    /** The deferred body of emit for one emitted event, over the observers
        registered at the time it runs. */
    method Deliver(e: Event) returns (calls: seq<Call>)
      ensures calls == Dispatched(observers, e.path, e.previous, e.kind)
    {
      calls := Dispatch(observers, e.path, e.previous, e.kind);
    }
  }
}
