# journey: a hash-history navigation tracker, modelled in Dafny

The tracker follows an application's position in the browser's session
history. It keeps the current path, the current state object and a depth
counter. `here` replaces the current history entry and `visit` pushes a new
one. Both are no-ops when the target is the current path. The `popstate`
handler works out whether the host moved forward ("push") or back ("pop") by
comparing the incoming state's depth with the tracker's depth. It makes a
fresh state when the fragment was edited by hand, and it reloads the page
when handed a state from another session. Path observers subscribe by exact
path or by fragment suffix. On each change, the deferred body of `emit`
calls their listeners for the previous path and then for the current one,
each pass cut short by `stopPropagation`. The emitter receives the event
last.

Layout:

- `common.dfy`: `Common`. Option, Result, Outcome and the three errors the tracker throws.
- `paths.dfy`: `Paths`. `getPath`, the `'#'` resolution rule of `updatePath`, and `endsWith`.
- `states.dfy`: `States`. The state record, `createState`, and the `Object.assign` merge of `journey.emit`.
- `navigation.dfy`: `Navigation`. Every entry point as a function from the
  old module variables to the new ones, plus the host calls and events it
  produces. The behaviour each one guarantees is stated on it, and lemmas
  relate successive calls.
- `session.dfy`: `Session`. The class `Journey`, whose fields are the module
  variables `path`, `state`, `depth` and `sessionId`. It also has an
  append-only log of host `history`/`location` calls, a log of emitted
  events, and the observer list. Each method changes these fields the way
  the source does. Its postcondition ties the new fields to the matching
  `Navigation` function of the old ones.
- `observers.dfy`: `Observers`. `createMatcher`, and the body of the
  deferred `emit` callback. The callback is a method with the source's
  loops, proved equal to the definition `Dispatched`. Lemmas about
  `Dispatched` give the order and stopping rules.

Browser inputs are parameters. An `Env` value carries `location.pathname`,
`location.hash`, `document.title` and `Date.now()` as they are at the moment
of the call. The load-time `Date.now()` that becomes the session id is a
constructor parameter. The state carried by a `popstate` event is an
`Option<State>`, with None standing for `null`. Calls to
`history.pushState`, `history.replaceState`, `history.back` and
`location.reload` become `HostCall` records appended to a log. A listener is
described by two flags: whether it calls `stopPropagation` when called for
the current path, and whether it does so when called for the previous path.

## How direction and sessions are decided

The direction of a `popstate` comes only from the depth comparison at
index.js:117. A state from another session is not adopted: the page is
reloaded (index.js:100-102). A fragment edited by hand gets a fresh state at
the current depth, which is reported as a pop. The event kinds are set, push
and pop.

## Model

| member | source | states |
|---|---|---|
| Paths.EndsWith | index.js:169 | endsWith holds exactly when the suffix fits and agrees character by character with the end of the string |
| Paths.IsFragment | index.js:131 | `path[0] == '#'` holds exactly when "#" is a prefix of the path, so never for the empty string |
| Paths.EndsWithIffConcat | index.js:168-169 | a path ends with a suffix exactly when it is some string followed by that suffix (both directions) |
| Paths.GetPath | index.js:123-128 | no fragment gives the pathname; a root pathname gives the fragment alone; otherwise pathname then fragment; the result always ends with the fragment |
| Paths.Resolve | index.js:130-133 | a target not starting with '#' is used as given; a bare fragment is resolved against the pathname (kept alone under '/'); the result ends with the target |
| Paths.ResolveIdempotent | index.js:130-134 | for a pathname that does not start with '#', resolving an already resolved path changes nothing |
| States.OrEmpty | index.js:152-154 | a given object is used as it is; a missing (falsy) one becomes an object with none of the four known keys and no application fields |
| States.HasTitle | index.js:157 | definition of the truthiness test on pageTitle (present and non-empty); no contract of its own, its effect is stated by States.CreateState |
| States.CreateState | index.js:151-162 | time, depth and sessionId are always overwritten (sessionId with the running one); a truthy pageTitle is kept, otherwise the document title is used; a missing argument becomes an empty object; other fields pass through |
| States.CreateStateRestamps | index.js:151-162 | passing a complete state back through createState keeps only its non-empty title and its fields, and returns the same state when nothing needs re-stamping |
| States.Assign | index.js:72-73 | Object.assign: every key the patch carries overwrites the state's, every other key keeps its value, and the field keys are the union |
| States.AssignLaws | index.js:72-73 | merging twice is merging once, merging an empty object is the identity, and merging a whole state whose fields include every field key of the target yields that state (Object.assign keeps the target's other keys) |
| Navigation.Name | index.js:65 | every event kind's id is one of the entries of the events array: set, push, pop |
| Navigation.ParseEvent | index.js:65-71 | an event id is accepted exactly when it is one of set, push and pop, and the accepted kind has that name |
| Navigation.ParseName | index.js:65-69 | every event kind's name is accepted as that kind |
| Navigation.Start | index.js:5-13 | at load the session id is the load time, depth is 0, the path comes from the location, and a fresh state stamped with the clock, depth 0, the document title and no fields replaces the current entry |
| Navigation.UpdatePath | index.js:130-149 | a resolved target equal to the current path changes nothing, writes nothing and emits nothing; otherwise visit raises the depth by exactly one and writes a push entry, while here keeps the depth and writes a replace entry; the new state is createState of the given object at the new depth and clock, so its depth equals the new depth and the title rule of States.CreateState applies; one push or set event carries the previous path |
| Navigation.SetState | index.js:17-23 | assigning journey.state changes nothing whenever the current path resolves to itself (it is not a bare fragment, or the pathname is the root) |
| Navigation.SetDepth | index.js:25-31 | assigning journey.depth always throws |
| Navigation.IsHere | index.js:43-46 | isHere with a string is equality with the current path |
| Navigation.Popstate | index.js:92-121 | a state from another session reloads and leaves path, state and depth untouched; a null state becomes a fresh state at the current depth and is reported as pop; otherwise the event is push iff the state's depth exceeds the current depth, and afterwards the depth is the state's; no history write |
| Navigation.Back | index.js:53-54 | history.back is called exactly when the depth is positive; nothing else changes |
| Navigation.Emit | index.js:68-77 | an id outside set/push/pop throws and changes nothing; a given state is merged into the current one and the entry is rewritten; the event is emitted with no previous path |
| Navigation.UpdatePathTwiceIsNoOp | index.js:21 | after a here or visit, under the same pathname (one that is not itself a fragment), assigning journey.state, which passes the already-resolved path back through updatePath (index.js:130-134), is a no-op, and so is a second here or visit to the same target |
| Navigation.VisitThenBackThenForward | index.js:116-118 | after a real visit, popping to the earlier state is reported as pop and restores the old depth, and popping to the visited state afterwards is reported as push and restores the visited depth |
| Navigation.HereThenPopIsPop | index.js:138-146 | a replace keeps the depth, so a pop to a state of that depth is reported as pop |
| Session.Journey.constructor | index.js:5-33 | the fields and the history log are those of Navigation.Start; origin is the load-time path; no events or observers yet |
| Session.Journey.Notify | index.js:177-184 | emit records the event with the current path and state and changes nothing else |
| Session.Journey.UpdatePath | index.js:130-149 | the new fields, history log and event log are those of Navigation.UpdatePath on the old fields |
| Session.Journey.Here | index.js:35-41 | here(path, state) is updatePath with a replace |
| Session.Journey.Visit | index.js:50-51 | visit(path, state) is updatePath with a push |
| Session.Journey.SetState | index.js:17-23 | the state setter is here with the current path (Navigation.SetState) |
| Session.Journey.SetDepth | index.js:25-31 | the depth setter always fails |
| Session.Journey.Back | index.js:53-54 | returns false when the old depth is not positive and otherwise history.back()'s undefined (None); appends history.back exactly when the depth is positive, and changes nothing else |
| Session.Journey.Popstate | index.js:92-121 | the new fields and logs are those of Navigation.Popstate on the old fields |
| Session.Journey.Emit | index.js:68-77 | fails and changes nothing on an unknown id; otherwise the fields and logs follow Navigation.Emit |
| Session.Journey.Observe | index.js:84-86 | a valid pattern appends one observer in registration order; an invalid one fails and registers nothing |
| Session.Journey.Deliver | index.js:186-229 | the calls made for an emitted event over the registered observers are Observers.Dispatched's |
| Observers.CreateMatcher | index.js:164-175 | a '#'-prefixed string gives a suffix matcher, any other string an exact matcher, and a value of the modelled non-string kind a TypeError |
| Observers.Matches | index.js:169-172 | an exact matcher accepts only the identical path; a suffix matcher accepts exactly the paths whose end is the pattern; a match needs a path at least as long as the pattern |
| Observers.ObserverMatching | index.js:168-173 | a suffix observer matches exactly the paths that end with its pattern; an exact observer matches only the identical path |
| Observers.FragmentObserverSeesVisit | index.js:43-46 | an observer for a fragment matches the path a here/visit to that fragment resolves to; isHere with a string agrees with the exact matcher |
| Observers.HasPrevious | index.js:191 | `!previous` is false exactly when a previous path is given and is not the empty string |
| Observers.Selects | index.js:194-210 | definition of which observers a pass calls: the current pass takes those matching the current path; the previous pass takes those that miss the current path and match the previous one. No contract of its own; its consequences are Observers.PickedSound, Observers.PickedComplete and Observers.CallsAreSelected |
| Observers.Picked | index.js:192-194 | the selected observer indices are positions within the list, from the starting position on |
| Observers.PickedSound | index.js:192-194 | every selected index is one the pass selects, and the indices come in registration order |
| Observers.PickedComplete | index.js:205-213 | no observer the pass selects is missed |
| Observers.Stops | index.js:188-222 | definition of whether a listener calls stopPropagation for the flag it is called with; no contract of its own, its effect on a pass is stated by Observers.RunShape and Observers.StopEndsPass |
| Observers.Run | index.js:192-197 | definition of one stop-bounded pass (no contract of its own; its properties are Observers.RunShape) |
| Observers.RunShape | index.js:192-197 | calls follow the listener order; every call but the last was to a listener that did not stop; the run ends early only right after one that stopped |
| Observers.RunReaches | index.js:220-223 | every listener before the first one that stops is called |
| Observers.Dispatched | index.js:186-228 | the definition of the calls for one event; its contract states that the emitter is the last call |
| Observers.Dispatch | index.js:186-229 | the emit callback's calls equal Dispatched |
| Observers.CallMatching | index.js:191-199 | with no previous path: the matching observers' listeners with true, in order, through the first that stops |
| Observers.CallLeaving | index.js:204-214 | collects the current-path listeners in order while calling, with false, the previous-path listeners of the observers the current path misses, until one stops |
| Observers.CallListeners | index.js:216-224 | with the stop flag reset, the collected listeners are called with true until one stops |
| Observers.EmitterLast | index.js:227-228 | the emitter receives the event last, and every earlier call is a listener call |
| Observers.DispatchedParts | index.js:186-228 | a dispatch is the previous-path pass, then the current-path pass, then the emitter, and each pass is selected, ordered and stop-bounded |
| Observers.CallsAreSelected | index.js:192-213 | every listener called matches the path it is called for; an observer matching the current path is never called for the previous path; previous-path calls happen only when a previous path exists |
| Observers.CallsInOrder | index.js:204-224 | all previous-path calls come before all current-path calls, and each pass runs in registration order |
| Observers.StopEndsPass | index.js:188-222 | after a listener that calls stopPropagation, no later call in the dispatch is to a listener of the same pass |
| Observers.CurrentListenerReached | index.js:192-223 | every observer matching the current path is called with true unless an earlier matching one stopped |
| Observers.PreviousListenerReached | index.js:205-213 | with a previous path, every observer that misses the current path but matches the previous one is called with false unless an earlier such one stopped |
| Observers.CurrentPassIgnoresPrevious | index.js:216-224 | the stop flag is reset: the current-path calls and the emitter are exactly those of a dispatch with no previous path, and everything before them is a previous-path call |

## Left out

- RegExp patterns in `createMatcher` and `isHere` (index.js:47, index.js:165-166) are left out because their semantics belong to a foreign regular-expression engine.
- Observers.CreateMatcher: `PatternValue.OtherPattern` stands only for non-string values whose element 0 is not '#' (a number, say), which reach the TypeError at index.js:174. The source tests `pattern[0] == '#'` (index.js:168) before it tests for a string (index.js:171). So a non-string whose element 0 is '#' (an array `['#', 'x']`, a `String` object) gets a suffix matcher through `endsWith`'s coercion, and `null` or `undefined` throw at `pattern[0]` rather than at index.js:174. Neither case is modelled.
- The emitter library (`new Emitter`, `journey.on`, `emitter.emit`) is foreign code. The model records only that the emitter receives the event, as the last call of a dispatch.
- The `nextTick` deferral is left out: `emit` appends the event to a log, and `Session.Journey.Deliver` runs the dispatch body over the observers registered when it runs. The batching and the order of ticks are scheduling only.
- Scroll restoration in the `popstate` handler (`requestAnimationFrame`, `isEnv('webkit')`) is UI timing and is not part of this model.
- The browser itself is not modelled. Location, title and clock readings are parameters, and history writes, `history.back` and `location.reload` are log records. The browser's reaction to them is not modelled, including the later `popstate` events it delivers.
- Getters: `here()` with no arguments and the `journey.state` and `journey.depth` getters read the fields `path`, `state` and `depth` directly, and have no separate members. `journey.origin` is a plain property assigned once at load (index.js:33). It is the constant field `origin`, equal to `Start(..).nav.path`, and never follows `path`.
- States are values. The source's `createState` mutates the object passed in and stores that very object as `_state`, and `journey.emit` assigns onto it. Aliasing between the caller's object and the tracker's state is therefore not captured.
- Listeners are modelled only by their two stop flags. Their other effects are not modelled, in particular a listener that registers an observer while a dispatch runs. The source re-reads `observers.length` on each iteration (index.js:192, index.js:205), so such an observer is visited in the same pass, while `Observers.Dispatch` works on a fixed list. A falsy listener is not modelled either: `&& listener` (index.js:169, index.js:172) makes its observer never call anything, while the model calls every matching observer.
- The four known state keys are typed (integers and a string), and the `Fields` type keeps them out of the application fields. Values of other JavaScript types in those keys are not modelled, nor is a non-string `path` argument. A state handed back by `popstate` with the running session id is taken to be a complete state, since only `createState` makes such states.
- Session.Journey.SetState: the no-op holds only when the current path resolves to itself under the pathname passed in. The source relies on the browser keeping the pathname at '/' while the path is a bare fragment, and the model does not track that pathname.
