/** The navigation tracker's transitions as functions of its state: the
    module initialisation, updatePath (reached through here and visit), the
    journey.state and journey.depth setters, the popstate handler, back and
    journey.emit. Each returns the new state together with the host-history
    calls it makes and the events it emits, in order. */
module Navigation {
  import opened Common
  import opened Paths
  import opened States

  datatype EventKind = Set | Push | Pop

  /** The event ids of the tracker's emitter. */
  function Name(k: EventKind): (r: string)
    ensures r in ["set", "push", "pop"]
  {
    match k
    case Set => "set"
    case Push => "push"
    case Pop => "pop"
  }

  /** journey.emit's validation: an id is known iff it names an event kind. */
  function ParseEvent(id: string): (r: Option<EventKind>)
    ensures r.Some? ==> Name(r.value) == id
    ensures r.None? ==> forall k: EventKind :: Name(k) != id
  {
    if id == "set" then Some(Set)
    else if id == "push" then Some(Push)
    else if id == "pop" then Some(Pop)
    else None
  }

  lemma ParseName(k: EventKind)
    ensures ParseEvent(Name(k)) == Some(k)
  {
  }

  /** What the browser reports at the moment of a call: location.pathname,
      location.hash, document.title and Date.now(). */
  datatype Env = Env(pathname: string, hash: string, title: string, now: int)

  /** An emitted path event; `previous` is None for journey.emit's null. */
  datatype Event = Event(kind: EventKind, path: string, state: State, previous: Option<string>)

  datatype EntryMode = PushEntry | ReplaceEntry

  /** A call into the host: history.pushState/replaceState (state, title, url),
      history.back() and location.reload(). */
  datatype HostCall =
    | Write(mode: EntryMode, state: State, title: string, url: string)
    | GoBack
    | Reload

  /** The tracker's module-level variables _path, _state, _depth and _sessionId. */
  datatype Nav = Nav(path: string, state: State, depth: int, sessionId: int)

  /** A transition's outcome: the new variables, then what it did to the host
      and what it emitted, each in order. */
  datatype Step = Step(nav: Nav, host: seq<HostCall>, events: seq<Event>)

  /** Module initialisation: the session id is the clock at load time, the path
      comes from the location, depth starts at 0, and a fresh state replaces
      the current history entry. */
  function Start(sessionId: int, env: Env): (r: Step)
    ensures r.nav.sessionId == sessionId && r.nav.depth == 0
    ensures r.nav.path == GetPath(env.pathname, env.hash)
    ensures r.nav.state.depth == 0 && r.nav.state.sessionId == sessionId
    ensures r.nav.state.time == env.now
    ensures r.nav.state.pageTitle == env.title && r.nav.state.fields == map[]
    ensures r.host == [Write(ReplaceEntry, r.nav.state, env.title, r.nav.path)]
    ensures r.events == []
  {
    var path := GetPath(env.pathname, env.hash);
    var state := CreateState(None, env.now, 0, env.title, sessionId);
    Step(Nav(path, state, 0, sessionId), [Write(ReplaceEntry, state, state.pageTitle, path)], [])
  }

  /** updatePath(path, state, isPush): here is isPush == false, visit is
      isPush == true. A target equal to the current path changes nothing. */
  function UpdatePath(n: Nav, path: string, given: Option<Patch>, isPush: bool, env: Env): (r: Step)
    ensures Resolve(env.pathname, path) == n.path ==> r == Step(n, [], [])
    ensures Resolve(env.pathname, path) != n.path ==>
      var target := Resolve(env.pathname, path);
      && r.nav.path == target
      && r.nav.sessionId == n.sessionId
      && r.nav.depth == (if isPush then n.depth + 1 else n.depth)
      && r.nav.state.depth == r.nav.depth
      && r.nav.state.sessionId == n.sessionId
      && r.nav.state.time == env.now
      && r.nav.state == CreateState(given, env.now, r.nav.depth, env.title, n.sessionId)
      && r.host == [Write(if isPush then PushEntry else ReplaceEntry, r.nav.state, r.nav.state.pageTitle, target)]
      && r.events == [Event(if isPush then Push else Set, target, r.nav.state, Some(n.path))]
  {
    var target := Resolve(env.pathname, path);
    if target == n.path then Step(n, [], [])
    else
      var depth := if isPush then n.depth + 1 else n.depth;
      var state := CreateState(given, env.now, depth, env.title, n.sessionId);
      var mode := if isPush then PushEntry else ReplaceEntry;
      var kind := if isPush then Push else Set;
      Step(Nav(target, state, depth, n.sessionId),
           [Write(mode, state, state.pageTitle, target)],
           [Event(kind, target, state, Some(n.path))])
  }

  /** Assigning journey.state is here(_path, state): it changes nothing as long
      as the current path resolves to itself, which it does unless it is a
      bare fragment while the pathname is no longer the root. */
  function SetState(n: Nav, given: Option<Patch>, env: Env): (r: Step)
    ensures !IsFragment(n.path) || env.pathname == "/" ==> r == Step(n, [], [])
  {
    UpdatePath(n, n.path, given, false, env)
  }

  /** Assigning journey.depth always throws and changes nothing. */
  function SetDepth(n: Nav, value: int): (r: Result<Step>)
    ensures r == Err(DepthIsReadOnly)
  {
    Err(DepthIsReadOnly)
  }

  /** journey.isHere with a string: plain equality with the current path. */
  function IsHere(n: Nav, pattern: string): (r: bool)
    ensures r <==> pattern == n.path
  {
    n.path == pattern
  }

  /** The popstate handler. No state means the fragment was edited by hand: a
      fresh state at the current depth is made. A state of another session
      reloads the page and changes nothing else. Otherwise the state is taken,
      the event is a push exactly when it is deeper than the current depth,
      and the depth becomes the state's. */
  function Popstate(n: Nav, incoming: Option<State>, env: Env): (r: Step)
    ensures incoming.Some? && incoming.value.sessionId != n.sessionId ==> r == Step(n, [Reload], [])
    ensures incoming.None? || incoming.value.sessionId == n.sessionId ==>
      && r.host == []
      && r.nav.path == GetPath(env.pathname, env.hash)
      && r.nav.sessionId == n.sessionId
      && r.nav.depth == r.nav.state.depth
      && |r.events| == 1
      && r.events[0] == Event(r.events[0].kind, r.nav.path, r.nav.state, Some(n.path))
      && (r.events[0].kind == Push <==> r.nav.state.depth > n.depth)
      && r.events[0].kind != Set
    ensures incoming.Some? && incoming.value.sessionId == n.sessionId ==> r.nav.state == incoming.value
    ensures incoming.None? ==>
      && r.nav.depth == n.depth
      && r.events[0].kind == Pop
      && r.nav.state.sessionId == n.sessionId
      && r.nav.state.time == env.now
      && r.nav.state.pageTitle == env.title
      && r.nav.state.fields == map[]
  {
    if incoming.Some? && incoming.value.sessionId != n.sessionId then
      Step(n, [Reload], [])
    else
      var state := if incoming.None? then CreateState(None, env.now, n.depth, env.title, n.sessionId)
                   else incoming.value;
      var path := GetPath(env.pathname, env.hash);
      var kind := if state.depth > n.depth then Push else Pop;
      Step(Nav(path, state, state.depth, n.sessionId), [], [Event(kind, path, state, Some(n.path))])
  }

  /** journey.back: asks the host to go back only when the depth is positive. */
  function Back(n: Nav): (r: Step)
    ensures r.nav == n && r.events == []
    ensures n.depth > 0 ==> r.host == [GoBack]
    ensures n.depth <= 0 ==> r.host == []
  {
    if n.depth > 0 then Step(n, [GoBack], []) else Step(n, [], [])
  }

  /** journey.emit(eventId, state): an unknown id throws before anything
      happens; a given state is merged into the current one and the entry is
      rewritten; the event is emitted with no previous path. */
  function Emit(n: Nav, id: string, given: Option<Patch>): (r: Result<Step>)
    ensures ParseEvent(id).None? ==> r == Err(UnknownEvent(id))
    ensures ParseEvent(id).Some? ==> r.Ok?
    ensures r.Ok? ==>
      && r.value.nav.path == n.path && r.value.nav.depth == n.depth && r.value.nav.sessionId == n.sessionId
      && (given.None? ==> r.value.nav.state == n.state && r.value.host == [])
      && (given.Some? ==>
            && r.value.nav.state == Assign(n.state, given.value)
            && r.value.host == [Write(ReplaceEntry, r.value.nav.state, r.value.nav.state.pageTitle, n.path)])
      && r.value.events == [Event(ParseEvent(id).value, n.path, r.value.nav.state, None)]
  {
    match ParseEvent(id)
    case None => Err(UnknownEvent(id))
    case Some(kind) =>
      if given.Some? then
        var state := Assign(n.state, given.value);
        Ok(Step(Nav(n.path, state, n.depth, n.sessionId),
                [Write(ReplaceEntry, state, state.pageTitle, n.path)],
                [Event(kind, n.path, state, None)]))
      else
        Ok(Step(n, [], [Event(kind, n.path, n.state, None)]))
  }

  /** After here or visit, under the same pathname (one a browser reports,
      so not itself a fragment), assigning journey.state, which passes the
      already-resolved current path back through updatePath, is a no-op; so
      is a second here or visit with the same target. */
  lemma UpdatePathTwiceIsNoOp(n: Nav, path: string, g1: Option<Patch>, g2: Option<Patch>,
                              push1: bool, push2: bool, env1: Env, env2: Env)
    requires env1.pathname == env2.pathname && !IsFragment(env1.pathname)
    ensures var r1 := UpdatePath(n, path, g1, push1, env1);
      && SetState(r1.nav, g2, env2) == Step(r1.nav, [], [])
      && UpdatePath(r1.nav, path, g2, push2, env2) == Step(r1.nav, [], [])
  {
    ResolveIdempotent(env1.pathname, path);
  }

  /** After a real visit, the host handing back the state that was current
      before (from this session, at the old depth) is reported as a pop and
      restores the old depth; handing back the visited state afterwards is
      reported as a push and restores the visited depth. */
  lemma VisitThenBackThenForward(n: Nav, path: string, given: Option<Patch>, env: Env,
                                 earlier: State, env2: Env, env3: Env)
    requires Resolve(env.pathname, path) != n.path
    requires earlier.sessionId == n.sessionId && earlier.depth == n.depth
    ensures var r1 := UpdatePath(n, path, given, true, env);
      var r2 := Popstate(r1.nav, Some(earlier), env2);
      var r3 := Popstate(r2.nav, Some(r1.nav.state), env3);
      && r1.nav.depth == n.depth + 1
      && r2.events[0].kind == Pop && r2.nav.depth == n.depth && r2.nav.state == earlier
      && r3.events[0].kind == Push && r3.nav.depth == n.depth + 1 && r3.nav.state == r1.nav.state
  {
  }

  /** A replace never changes the depth, so a pop back to a state of the same
      depth after it is reported as a pop, not a push. */
  lemma HereThenPopIsPop(n: Nav, path: string, given: Option<Patch>, env: Env, other: State, env2: Env)
    requires other.sessionId == n.sessionId && other.depth == n.depth
    ensures var r1 := UpdatePath(n, path, given, false, env);
      var r2 := Popstate(r1.nav, Some(other), env2);
      r1.nav.depth == n.depth && r2.events[0].kind == Pop
  {
  }
}
