/**
 * The registry file at instancesFilePath, seen as an abstract state, and what each
 * store operation does to it (ProcessStore.java, save, findAll, find, remove, exists).
 * Java serialisation is identity on the map: the file holds the map that was written.
 */
module Registry {
  import opened Wrappers
  import opened Workspace

  type ProcessMap = map<string, HazelcastProcess>

  /**
   * The instances file: not there yet, there but zero bytes long, holding a
   * serialised map, or holding bytes that do not deserialise to a map.
   */
  datatype FileState =
    | Absent
    | Empty
    | Stored(processes: ProcessMap)
    | Corrupt

  /** The store's failures (both are a HazelcastException in the source). */
  datatype StoreError =
    | ReadFailed             // the map could not be read back from the file
    | NotFound(name: string) // remove of a name that is not stored

  /** Every key names the record stored under it. */
  ghost predicate KeyedByName(m: ProcessMap)
  {
    forall k :: k in m ==> m[k].name == k
  }

  ghost predicate WellKeyed(f: FileState)
  {
    f.Stored? ==> KeyedByName(f.processes)
  }

  /** The file after findAll has looked at it: an absent file has been created empty. */
  function Opened(f: FileState): (g: FileState)
    ensures !g.Absent?
    ensures !f.Absent? ==> g == f
    ensures f.Absent? ==> g.Empty?
  {
    if f.Absent? then Empty else f
  }

  /**
   * What findAll returns: an absent or empty file reads as the empty map, a
   * stored map reads back as itself, and an unreadable file fails rather than
   * giving a partial map.
   */
  function ReadAll(f: FileState): (r: Result<ProcessMap, StoreError>)
    ensures r.Failure? <==> f.Corrupt?
    ensures r.Failure? ==> r.error == ReadFailed
    ensures (f.Absent? || f.Empty?) ==> r == Success(map[])
    ensures f.Stored? ==> r == Success(f.processes)
  {
    match f
    case Absent => Success(map[])
    case Empty => Success(map[])
    case Stored(m) => Success(m)
    case Corrupt => Failure(ReadFailed)
  }

  /** What find returns: the record under `name`, if any, or the read failure. */
  function FindIn(f: FileState, name: string): (r: Result<Option<HazelcastProcess>, StoreError>)
    ensures r.Failure? <==> f.Corrupt?
    ensures r.Success? ==> (r.value.Some? <==> name in ReadAll(f).value)
    ensures r.Success? && r.value.Some? ==> r.value.value == ReadAll(f).value[name]
  {
    match ReadAll(f)
    case Failure(e) => Failure(e)
    case Success(m) => Success(if name in m then Some(m[name]) else None)
  }

  /** What exists returns: true exactly when find gives a record. */
  function ExistsIn(f: FileState, name: string): (r: Result<bool, StoreError>)
    ensures r.Failure? <==> FindIn(f, name).Failure?
    ensures r.Success? ==> (r.value <==> FindIn(f, name).value.Some?)
  {
    match ReadAll(f)
    case Failure(e) => Failure(e)
    case Success(m) => Success(name in m)
  }

  /**
   * The file after save(p), or the failure: `p` is put under its own name,
   * replacing any earlier record of that name, and every other entry is kept.
   */
  function SaveTo(f: FileState, p: HazelcastProcess): (r: Result<FileState, StoreError>)
    ensures r.Failure? <==> f.Corrupt?
    ensures r.Failure? ==> r.error == ReadFailed
    ensures r.Success? ==> r.value.Stored?
    ensures r.Success? ==> r.value.processes.Keys == ReadAll(f).value.Keys + {p.name}
    ensures r.Success? ==> p.name in r.value.processes && r.value.processes[p.name] == p
    ensures r.Success? ==> forall k :: k in ReadAll(f).value && k != p.name ==>
      r.value.processes[k] == ReadAll(f).value[k]
  {
    match ReadAll(f)
    case Failure(e) => Failure(e)
    case Success(m) => Success(Stored(m[p.name := p]))
  }

  /**
   * The file after remove(name), or the failure: a name that is not stored is an
   * error; otherwise exactly that key is deleted and every other entry is kept.
   */
  function RemoveFrom(f: FileState, name: string): (r: Result<FileState, StoreError>)
    ensures r.Failure? <==> (f.Corrupt? || name !in ReadAll(f).value)
    ensures r.Failure? && !f.Corrupt? ==> r.error == NotFound(name)
    ensures r.Success? ==> r.value.Stored?
    ensures r.Success? ==> r.value.processes.Keys == ReadAll(f).value.Keys - {name}
    ensures r.Success? ==> forall k :: k in r.value.processes ==>
      r.value.processes[k] == ReadAll(f).value[k]
  {
    match ReadAll(f)
    case Failure(e) => Failure(e)
    case Success(m) =>
      if name !in m then Failure(NotFound(name)) else Success(Stored(m - {name}))
  }

  /** Creating an absent file does not change what is read from it. */
  lemma OpenedReadsSame(f: FileState)
    ensures ReadAll(Opened(f)) == ReadAll(f)
  {
  }

  /** After save(p), find(p.name) returns p. */
  lemma SaveThenFind(f: FileState, p: HazelcastProcess)
    requires !f.Corrupt?
    ensures SaveTo(f, p).Success?
    ensures FindIn(SaveTo(f, p).value, p.name) == Success(Some(p))
    ensures ExistsIn(SaveTo(f, p).value, p.name) == Success(true)
  {
  }

  /** Saving under a name leaves find of every other name as it was. */
  lemma SaveKeepsOthers(f: FileState, p: HazelcastProcess, name: string)
    requires !f.Corrupt? && name != p.name
    ensures SaveTo(f, p).Success?
    ensures FindIn(SaveTo(f, p).value, name) == FindIn(f, name)
  {
  }

  /** A second save under the same name replaces the first: only the last one is visible. */
  lemma SaveReplaces(f: FileState, p: HazelcastProcess, q: HazelcastProcess)
    requires !f.Corrupt? && p.name == q.name
    ensures SaveTo(f, p).Success?
    ensures SaveTo(SaveTo(f, p).value, q) == SaveTo(f, q)
  {
    var m := ReadAll(f).value;
    assert m[p.name := p][q.name := q] == m[q.name := q];
  }

  /** Removing the name of a record that was just saved under a new name restores the old mapping. */
  lemma SaveThenRemove(f: FileState, p: HazelcastProcess)
    requires FindIn(f, p.name) == Success(None)
    ensures SaveTo(f, p).Success?
    ensures RemoveFrom(SaveTo(f, p).value, p.name) == Success(Stored(ReadAll(f).value))
  {
    var m := ReadAll(f).value;
    assert m[p.name := p] - {p.name} == m;
  }

  /** remove of a name that is not stored fails and nothing is written. */
  lemma RemoveMissingFails(f: FileState, name: string)
    requires ExistsIn(f, name) == Success(false)
    ensures RemoveFrom(f, name) == Failure(NotFound(name))
  {
  }

  /** After a successful remove(name), exists(name) is false and every other name finds what it found before. */
  lemma RemoveThenAbsent(f: FileState, name: string, other: string)
    requires RemoveFrom(f, name).Success? && other != name
    ensures ExistsIn(RemoveFrom(f, name).value, name) == Success(false)
    ensures FindIn(RemoveFrom(f, name).value, other) == FindIn(f, other)
  {
  }

  /** A corrupt file fails every operation and is never read as a (partial) map. */
  lemma CorruptFailsClosed(p: HazelcastProcess, name: string)
    ensures ReadAll(Corrupt) == Failure(ReadFailed)
    ensures FindIn(Corrupt, name).Failure? && ExistsIn(Corrupt, name).Failure?
    ensures SaveTo(Corrupt, p) == Failure(ReadFailed)
    ensures RemoveFrom(Corrupt, name) == Failure(ReadFailed)
  {
  }

  /** save keeps every record keyed by its own name. */
  lemma SavePreservesKeyedByName(f: FileState, p: HazelcastProcess)
    requires WellKeyed(f) && SaveTo(f, p).Success?
    ensures WellKeyed(SaveTo(f, p).value)
  {
  }

  /** remove keeps every record keyed by its own name. */
  lemma RemovePreservesKeyedByName(f: FileState, name: string)
    requires WellKeyed(f) && RemoveFrom(f, name).Success?
    ensures WellKeyed(RemoveFrom(f, name).value)
  {
  }
}
