/**
 * The recent-projects list (`useProjects`): entries move to the front when
 * a file is opened again, are removed by path, and are read back from
 * storage keeping only well-formed entries. The stored text is modelled
 * by the value `JSON.parse` gives for it.
 */
module Projects {
  import opened Wrappers

  datatype ProjectEntry = ProjectEntry(filePath: string, fileName: string, addedAt: int)

  /** A parsed JSON value (numbers are integers here). */
  datatype Json =
    | JNull
    | JBool(b: bool)
    | JNumber(n: int)
    | JString(s: string)
    | JArray(items: seq<Json>)
    | JObject(fields: map<string, Json>)

  /** What the storage key holds: nothing (or the empty string), text `JSON.parse` rejects, or parsed text. */
  datatype Stored = Absent | Corrupt | Parsed(value: Json)

  // ---------------------------------------------------------------- add / remove

  /** `prev.filter(p => p.filePath !== filePath)`. */
  function WithoutPath(list: seq<ProjectEntry>, path: string): (r: seq<ProjectEntry>)
    ensures |r| <= |list|
    ensures forall e :: e in r <==> e in list && e.filePath != path
  {
    if list == [] then []
    else (if list[0].filePath == path then [] else [list[0]]) + WithoutPath(list[1..], path)
  }

  /** The filter keeps the order of what it keeps. */
  lemma {:induction false} WithoutPathAppend(a: seq<ProjectEntry>, b: seq<ProjectEntry>, path: string)
    ensures WithoutPath(a + b, path) == WithoutPath(a, path) + WithoutPath(b, path)
  {
    if a == [] {
      assert a + b == b;
    } else {
      assert (a + b)[1..] == a[1..] + b;
      WithoutPathAppend(a[1..], b, path);
    }
  }

  /** A list holding no entry for the path is left as it is. */
  lemma {:induction false} WithoutAbsentPath(list: seq<ProjectEntry>, path: string)
    requires forall e :: e in list ==> e.filePath != path
    ensures WithoutPath(list, path) == list
  {
    if list != [] {
      assert list[0] in list;
      assert forall e :: e in list[1..] ==> e in list;
      WithoutAbsentPath(list[1..], path);
      assert list == [list[0]] + list[1..];
    }
  }

  /** `addProject`: the new entry first, then every other entry in its old order. */
  function AddProject(list: seq<ProjectEntry>, path: string, name: string, now: int): (r: seq<ProjectEntry>)
    ensures |r| >= 1 && r[0] == ProjectEntry(path, name, now)
    ensures r[1..] == WithoutPath(list, path)
  {
    [ProjectEntry(path, name, now)] + WithoutPath(list, path)
  }

  /** `removeProject`. */
  function RemoveProject(list: seq<ProjectEntry>, path: string): (r: seq<ProjectEntry>)
    ensures forall e :: e in r <==> e in list && e.filePath != path
  {
    WithoutPath(list, path)
  }

  /** How many entries have the path. */
  function CountPath(list: seq<ProjectEntry>, path: string): (n: nat)
    ensures n <= |list|
    ensures n == 0 <==> forall e :: e in list ==> e.filePath != path
  {
    if list == [] then 0
    else (if list[0].filePath == path then 1 else 0) + CountPath(list[1..], path)
  }

  /** The filter removes exactly the entries with the path. */
  lemma {:induction false} WithoutPathLength(list: seq<ProjectEntry>, path: string)
    ensures |WithoutPath(list, path)| == |list| - CountPath(list, path)
  {
    if list != [] {
      WithoutPathLength(list[1..], path);
    }
  }

  /**
   * After `addProject` the path appears exactly once, and the list grows
   * by one exactly when the path was new (otherwise it shrinks or keeps
   * its length).
   */
  lemma AddProjectCounts(list: seq<ProjectEntry>, path: string, name: string, now: int)
    ensures CountPath(AddProject(list, path, name, now), path) == 1
    ensures |AddProject(list, path, name, now)| == |list| + 1 - CountPath(list, path)
    ensures |AddProject(list, path, name, now)| <= |list| + 1
    ensures |AddProject(list, path, name, now)| == |list| + 1 <==> forall e :: e in list ==> e.filePath != path
  {
    var r := AddProject(list, path, name, now);
    assert r[1..] == WithoutPath(list, path);
    WithoutPathLength(list, path);
  }

  /** Opening a file that is not yet listed just puts it in front. */
  lemma AddNewProject(list: seq<ProjectEntry>, path: string, name: string, now: int)
    requires forall e :: e in list ==> e.filePath != path
    ensures AddProject(list, path, name, now) == [ProjectEntry(path, name, now)] + list
  {
    WithoutAbsentPath(list, path);
  }

  /** Removing twice is removing once, and a removal leaves no entry for the path. */
  lemma RemoveIdempotent(list: seq<ProjectEntry>, path: string)
    ensures RemoveProject(RemoveProject(list, path), path) == RemoveProject(list, path)
    ensures CountPath(RemoveProject(list, path), path) == 0
  {
    WithoutAbsentPath(WithoutPath(list, path), path);
  }

  /** Removing what was just added leaves the old list without that path. */
  lemma RemoveAfterAdd(list: seq<ProjectEntry>, path: string, name: string, now: int)
    ensures RemoveProject(AddProject(list, path, name, now), path) == RemoveProject(list, path)
  {
    var r := AddProject(list, path, name, now);
    assert r == [r[0]] + WithoutPath(list, path);
    WithoutPathAppend([r[0]], WithoutPath(list, path), path);
    RemoveIdempotent(list, path);
    assert WithoutPath([r[0]], path) == [];
  }

  // ---------------------------------------------------------------- load / save

  /** The entry an array element stands for, when it has the three typed fields. */
  function EntryOf(j: Json): (r: Option<ProjectEntry>)
    ensures r.Some? <==>
      && j.JObject?
      && "filePath" in j.fields && j.fields["filePath"].JString?
      && "fileName" in j.fields && j.fields["fileName"].JString?
      && "addedAt" in j.fields && j.fields["addedAt"].JNumber?
    ensures r.Some? ==>
      r.value == ProjectEntry(j.fields["filePath"].s, j.fields["fileName"].s, j.fields["addedAt"].n)
  {
    match j
    case JObject(m) =>
      if "filePath" in m && m["filePath"].JString?
        && "fileName" in m && m["fileName"].JString?
        && "addedAt" in m && m["addedAt"].JNumber?
      then Some(ProjectEntry(m["filePath"].s, m["fileName"].s, m["addedAt"].n))
      else None
    case _ => None
  }

  /** The type filter of `loadProjects`. */
  function KeepEntries(items: seq<Json>): (r: seq<ProjectEntry>)
    ensures |r| <= |items|
  {
    if items == [] then []
    else
      (match EntryOf(items[0]) case Some(e) => [e] case None => []) + KeepEntries(items[1..])
  }

  lemma {:induction false} KeepEntriesAppend(a: seq<Json>, b: seq<Json>)
    ensures KeepEntries(a + b) == KeepEntries(a) + KeepEntries(b)
  {
    if a == [] {
      assert a + b == b;
    } else {
      assert (a + b)[1..] == a[1..] + b;
      KeepEntriesAppend(a[1..], b);
    }
  }

  /** An entry is loaded iff some stored element stands for it. */
  lemma {:induction false} KeepEntriesMembers(items: seq<Json>, e: ProjectEntry)
    ensures e in KeepEntries(items) <==> exists i :: 0 <= i < |items| && EntryOf(items[i]) == Some(e)
  {
    if items != [] {
      KeepEntriesMembers(items[1..], e);
      if exists i :: 0 <= i < |items[1..]| && EntryOf(items[1..][i]) == Some(e) {
        var i :| 0 <= i < |items[1..]| && EntryOf(items[1..][i]) == Some(e);
        assert EntryOf(items[i + 1]) == Some(e);
      }
      if exists i :: 0 <= i < |items| && EntryOf(items[i]) == Some(e) {
        var i :| 0 <= i < |items| && EntryOf(items[i]) == Some(e);
        if i > 0 {
          assert EntryOf(items[1..][i - 1]) == Some(e);
        }
      }
    }
  }

  /** `loadProjects`: the typed entries of a stored array, and nothing in every other case. */
  function LoadProjects(stored: Stored): (r: seq<ProjectEntry>)
    ensures !(stored.Parsed? && stored.value.JArray?) ==> r == []
    ensures stored.Parsed? && stored.value.JArray? ==> r == KeepEntries(stored.value.items)
  {
    match stored
    case Parsed(JArray(items)) => KeepEntries(items)
    case _ => []
  }

  /** `JSON.stringify` of one entry, as the object it parses back to. */
  function EncodeEntry(e: ProjectEntry): Json {
    JObject(map["filePath" := JString(e.filePath), "fileName" := JString(e.fileName), "addedAt" := JNumber(e.addedAt)])
  }

  function Encode(list: seq<ProjectEntry>): (js: seq<Json>)
    ensures |js| == |list|
    ensures forall i :: 0 <= i < |list| ==> js[i] == EncodeEntry(list[i])
  {
    seq(|list|, i requires 0 <= i < |list| => EncodeEntry(list[i]))
  }

  /** `saveProjects`: what the storage key holds afterwards. */
  function Save(list: seq<ProjectEntry>): Stored {
    Parsed(JArray(Encode(list)))
  }

  /** What is saved loads back unchanged: the filter drops none of the app's own entries. */
  lemma {:induction false} LoadSaveRoundTrip(list: seq<ProjectEntry>)
    ensures LoadProjects(Save(list)) == list
  {
    if list != [] {
      var js := Encode(list);
      assert js[1..] == Encode(list[1..]);
      assert EntryOf(js[0]) == Some(list[0]);
      LoadSaveRoundTrip(list[1..]);
      assert list == [list[0]] + list[1..];
    }
  }

  /** Elements that are not entries are skipped and the rest keep their order. */
  lemma LoadSkipsMalformed(good: seq<ProjectEntry>, bad: Json, rest: seq<ProjectEntry>)
    requires EntryOf(bad).None?
    ensures LoadProjects(Parsed(JArray(Encode(good) + [bad] + Encode(rest)))) == good + rest
  {
    var g, r := Encode(good), Encode(rest);
    KeepEntriesAppend(g + [bad], r);
    KeepEntriesAppend(g, [bad]);
    LoadSaveRoundTrip(good);
    LoadSaveRoundTrip(rest);
    assert KeepEntries(g) == good && KeepEntries(r) == rest;
    assert KeepEntries([bad]) == [] by {
      assert [bad][1..] == [];
    }
    assert KeepEntries(g + [bad]) == good;
  }

  /** The `projects` cell together with the storage key it persists to. */
  class ProjectStore {
    var projects: seq<ProjectEntry>
    var storage: Stored

    /** The initial state is whatever `loadProjects` reads. */
    constructor (stored: Stored)
      ensures storage == stored && projects == LoadProjects(stored)
    {
      storage := stored;
      projects := LoadProjects(stored);
    }

    /** The stored list is the one in the cell. */
    ghost predicate Persisted()
      reads this
    {
      LoadProjects(storage) == projects
    }

    method Add(path: string, name: string, now: int)
      modifies this
      ensures projects == AddProject(old(projects), path, name, now)
      ensures storage == Save(projects) && Persisted()
    {
      projects := AddProject(projects, path, name, now);
      storage := Save(projects);
      LoadSaveRoundTrip(projects);
    }

    method Remove(path: string)
      modifies this
      ensures projects == RemoveProject(old(projects), path)
      ensures storage == Save(projects) && Persisted()
    {
      projects := RemoveProject(projects, path);
      storage := Save(projects);
      LoadSaveRoundTrip(projects);
    }
  }
}
