/** Navigation state records: what createState builds and what journey.emit
    merges into the current state with Object.assign. */
module States {
  import opened Common

  /** An application-defined field value, opaque to the tracker. */
  datatype Value = Null | Bool(b: bool) | Number(n: int) | Text(s: string)

  /** The application's own keys of a state object: a JavaScript object
      has one value per key, so the four keys the tracker reads are never
      among them. */
  type Fields = m: map<string, Value> | m.Keys !! {"time", "depth", "pageTitle", "sessionId"}
    witness map[]

  /** A state as createState leaves it: a creation time, the depth it was
      made at, a page title, the session that made it, and whatever other
      fields the application put on it. */
  datatype State = State(
    time: int,
    depth: int,
    pageTitle: string,
    sessionId: int,
    fields: Fields)

  /** An object handed in by the application: each of the four known keys may
      be absent; all other keys are kept in `fields`. */
  datatype Patch = Patch(
    time: Option<int>,
    depth: Option<int>,
    pageTitle: Option<string>,
    sessionId: Option<int>,
    fields: Fields)

  /** createState's `state = {}` for a missing (falsy) argument: the patch
      given, or one with no keys at all. */
  function OrEmpty(given: Option<Patch>): (p: Patch)
    ensures given.Some? ==> p == given.value
    ensures given.None? ==>
      && p.time.None? && p.depth.None? && p.pageTitle.None? && p.sessionId.None?
      && p.fields == map[]
  {
    if given.Some? then given.value else Patch(None, None, None, None, map[])
  }

  /** The object a state is, seen as a patch carrying every key. */
  function AsPatch(s: State): Patch
  {
    Patch(Some(s.time), Some(s.depth), Some(s.pageTitle), Some(s.sessionId), s.fields)
  }

  /** The patch has a truthy pageTitle (a non-empty string). */
  predicate HasTitle(p: Patch)
  {
    p.pageTitle.Some? && p.pageTitle.value != ""
  }

  /** createState: time, depth and sessionId are always stamped anew; a truthy
      pageTitle is kept and otherwise replaced by the document title; the
      application's own fields pass through. A missing (falsy) argument is an
      empty object. */
  function CreateState(given: Option<Patch>, now: int, depth: int, documentTitle: string, sessionId: int): (s: State)
    ensures s.time == now && s.depth == depth && s.sessionId == sessionId
    ensures given.Some? && HasTitle(given.value) ==> s.pageTitle == given.value.pageTitle.value
    ensures !(given.Some? && HasTitle(given.value)) ==> s.pageTitle == documentTitle
    ensures given.None? ==> s.fields == map[]
    ensures given.Some? ==> s.fields == given.value.fields
  {
    var p := OrEmpty(given);
    State(now, depth, if HasTitle(p) then p.pageTitle.value else documentTitle, sessionId, p.fields)
  }

  /** Passing a state back through createState re-stamps it: only its title
      (when non-empty) and its application fields survive. */
  lemma CreateStateRestamps(s: State, now: int, depth: int, documentTitle: string, sessionId: int)
    ensures var t := CreateState(Some(AsPatch(s)), now, depth, documentTitle, sessionId);
      && t.fields == s.fields
      && t.pageTitle == (if s.pageTitle != "" then s.pageTitle else documentTitle)
      && (s.pageTitle != "" && s.time == now && s.depth == depth && s.sessionId == sessionId ==> t == s)
  {
  }

  /** Object.assign(target, source): every key present in the patch overwrites
      the state's, every other key keeps its value. */
  function Assign(s: State, p: Patch): (r: State)
    ensures r.time == (if p.time.Some? then p.time.value else s.time)
    ensures r.depth == (if p.depth.Some? then p.depth.value else s.depth)
    ensures r.pageTitle == (if p.pageTitle.Some? then p.pageTitle.value else s.pageTitle)
    ensures r.sessionId == (if p.sessionId.Some? then p.sessionId.value else s.sessionId)
    ensures r.fields.Keys == s.fields.Keys + p.fields.Keys
    ensures forall k :: k in p.fields ==> r.fields[k] == p.fields[k]
    ensures forall k :: k in s.fields && k !in p.fields ==> r.fields[k] == s.fields[k]
  {
    State(
      if p.time.Some? then p.time.value else s.time,
      if p.depth.Some? then p.depth.value else s.depth,
      if p.pageTitle.Some? then p.pageTitle.value else s.pageTitle,
      if p.sessionId.Some? then p.sessionId.value else s.sessionId,
      s.fields + p.fields)
  }

  /** Merging is idempotent, merging nothing changes nothing, and merging a
      whole state with no extra fields of the target yields that state. */
  lemma AssignLaws(s: State, p: Patch, t: State)
    ensures Assign(Assign(s, p), p) == Assign(s, p)
    ensures Assign(s, OrEmpty(None)) == s
    ensures s.fields.Keys <= t.fields.Keys ==> Assign(s, AsPatch(t)) == t
  {
    assert Assign(Assign(s, p), p).fields == Assign(s, p).fields;
    assert Assign(s, OrEmpty(None)).fields == s.fields;
    if s.fields.Keys <= t.fields.Keys {
      assert Assign(s, AsPatch(t)).fields == t.fields;
    }
  }
}
