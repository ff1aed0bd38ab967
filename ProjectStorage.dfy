/** The project store: the list of `Project` records kept as one JSON array
    under the key "architectural-projects" of the browser's key-value store.
    The key-value store is a map from key to entry; an entry is either an
    array of serialised records or text that does not parse as one. */
module ProjectStorage {
  import opened Common

  datatype ProjectStatus = InProgress | PendingReview | Completed

  /** A point in time, as milliseconds since the epoch. */
  datatype Date = Date(ms: int)

  datatype Project = Project(
    id: string,
    name: string,
    projectType: string,
    status: ProjectStatus,
    progress: int,
    lastActivity: string,
    compliance: int,
    totalChecks: int,
    createdAt: Date,
    files: seq<string>,
    discipline: string,
    description: Option<string>)

  /** A record as `JSON.stringify` leaves it: the date has become plain data. */
  datatype StoredProject = StoredProject(
    id: string,
    name: string,
    projectType: string,
    status: ProjectStatus,
    progress: int,
    lastActivity: string,
    compliance: int,
    totalChecks: int,
    createdAtMs: int,
    files: seq<string>,
    discipline: string,
    description: Option<string>)

  /** What the key holds: text that parses to an array of records, or text
      on which `getProjects` fails (`JSON.parse` throws, the value has no
      `map`, or an element is null). */
  datatype Entry = Corrupt | Parsed(records: seq<StoredProject>)

  const StorageKey := "architectural-projects"

  /** `Partial<Project>`: each field is either supplied or absent. */
  datatype ProjectUpdate = ProjectUpdate(
    id: Option<string>,
    name: Option<string>,
    projectType: Option<string>,
    status: Option<ProjectStatus>,
    progress: Option<int>,
    lastActivity: Option<string>,
    compliance: Option<int>,
    totalChecks: Option<int>,
    createdAt: Option<Date>,
    files: Option<seq<string>>,
    discipline: Option<string>,
    description: Option<string>)

  function Serialize(p: Project): StoredProject
  {
    StoredProject(p.id, p.name, p.projectType, p.status, p.progress, p.lastActivity,
                  p.compliance, p.totalChecks, p.createdAt.ms, p.files, p.discipline, p.description)
  }

  /** The `map` of `getProjects`: every field copied, `createdAt` turned back into a date. */
  function Revive(s: StoredProject): Project
  {
    Project(s.id, s.name, s.projectType, s.status, s.progress, s.lastActivity,
            s.compliance, s.totalChecks, Date(s.createdAtMs), s.files, s.discipline, s.description)
  }

  function SerializeAll(ps: seq<Project>): (r: seq<StoredProject>)
    ensures |r| == |ps|
  {
    if ps == [] then [] else [Serialize(ps[0])] + SerializeAll(ps[1..])
  }

  function ReviveAll(ss: seq<StoredProject>): (r: seq<Project>)
    ensures |r| == |ss|
  {
    if ss == [] then [] else [Revive(ss[0])] + ReviveAll(ss[1..])
  }

  /** Reading back what was written gives the same records, dates included to the millisecond. */
  lemma {:induction false} ReviveSerialized(ps: seq<Project>)
    ensures ReviveAll(SerializeAll(ps)) == ps
  {
    if ps != [] {
      ReviveSerialized(ps[1..]);
    }
  }

  /** `getProjects`: the empty list outside a browser, when the key is absent
      or when its text does not parse; otherwise the revived records. */
  function ReadProjects(isBrowser: bool, entries: map<string, Entry>): (r: seq<Project>)
  {
    if !isBrowser then []
    else if StorageKey !in entries then []
    else match entries[StorageKey]
      case Corrupt => []
      case Parsed(records) => ReviveAll(records)
  }

  lemma ReadProjectsCases(isBrowser: bool, entries: map<string, Entry>)
    ensures !isBrowser || StorageKey !in entries || entries[StorageKey].Corrupt?
            ==> ReadProjects(isBrowser, entries) == []
    ensures isBrowser && StorageKey in entries && entries[StorageKey].Parsed?
            ==> ReadProjects(isBrowser, entries) == ReviveAll(entries[StorageKey].records)
  {
  }

  function IdIsNot(id: string): Project -> bool
  {
    (q: Project) => q.id != id
  }

  function IdIs(id: string): Project -> bool
  {
    (q: Project) => q.id == id
  }

  /** The list `saveProject` writes: the new record first, then every old record with another id. */
  function Saved(existing: seq<Project>, p: Project): seq<Project>
  {
    [p] + Filter(existing, IdIsNot(p.id))
  }

  /** After saving, the first record is the saved one. */
  lemma SavedFirst(existing: seq<Project>, p: Project)
    ensures |Saved(existing, p)| >= 1 && Saved(existing, p)[0] == p
  {
  }

  /** After saving, exactly one record carries the saved id; the others are the old
      records with a different id, in their old relative order, and the list has grown
      by one less the number of old records that had the id. */
  lemma SavedShape(existing: seq<Project>, p: Project)
    ensures CountWhere(Saved(existing, p), IdIs(p.id)) == 1
    ensures IsSubsequence(Saved(existing, p)[1..], existing)
    ensures forall q | q in existing && q.id != p.id :: q in Saved(existing, p)
    ensures |Saved(existing, p)| == 1 + |existing| - CountWhere(existing, IdIs(p.id))
  {
    var rest := Filter(existing, IdIsNot(p.id));
    assert Saved(existing, p)[1..] == rest;
    FilterIsSubsequence(existing, IdIsNot(p.id));
    FilterLength(existing, IdIsNot(p.id), IdIs(p.id));
    NoneWithId(rest, p.id);
    forall q | q in existing && q.id != p.id ensures q in Saved(existing, p) {
      FilterMembership(existing, IdIsNot(p.id), q);
    }
  }

  lemma {:induction false} NoneWithId(ps: seq<Project>, id: string)
    requires forall k | 0 <= k < |ps| :: ps[k].id != id
    ensures CountWhere(ps, IdIs(id)) == 0
  {
    if ps != [] {
      NoneWithId(ps[1..], id);
    }
  }

  /** Saving the same record twice leaves the list that saving it once leaves. */
  lemma SavedIdempotent(existing: seq<Project>, p: Project)
    ensures Saved(Saved(existing, p), p) == Saved(existing, p)
  {
    var rest := Filter(existing, IdIsNot(p.id));
    calc {
      Saved(Saved(existing, p), p);
      [p] + Filter([p] + rest, IdIsNot(p.id));
      { FilterAppend([p], rest, IdIsNot(p.id)); }
      [p] + (Filter([p], IdIsNot(p.id)) + Filter(rest, IdIsNot(p.id)));
      { assert Filter([p], IdIsNot(p.id)) == []; }
      [p] + Filter(rest, IdIsNot(p.id));
      { FilterIdempotent(existing, IdIsNot(p.id)); }
      [p] + rest;
    }
  }

  /** `{ ...p, ...updates, lastActivity: now }`: supplied fields win, and the
      activity stamp is always the current time. */
  function Merge(p: Project, u: ProjectUpdate, now: string): Project
  {
    Project(GetOr(u.id, p.id), GetOr(u.name, p.name), GetOr(u.projectType, p.projectType),
            GetOr(u.status, p.status), GetOr(u.progress, p.progress), now,
            GetOr(u.compliance, p.compliance), GetOr(u.totalChecks, p.totalChecks),
            GetOr(u.createdAt, p.createdAt), GetOr(u.files, p.files),
            GetOr(u.discipline, p.discipline),
            if u.description.Some? then u.description else p.description)
  }

  /** The list `updateProject` writes: matching records merged, the others as they were. */
  function Updated(ps: seq<Project>, id: string, u: ProjectUpdate, now: string): (r: seq<Project>)
    ensures |r| == |ps|
  {
    if ps == [] then []
    else [if ps[0].id == id then Merge(ps[0], u, now) else ps[0]] + Updated(ps[1..], id, u, now)
  }

  /** Record by record: a record with the id gets the update merged and the
      current stamp, whatever stamp the update supplied; any other record is untouched. */
  lemma {:induction false} UpdatedAt(ps: seq<Project>, id: string, u: ProjectUpdate, now: string, k: nat)
    requires k < |ps|
    ensures ps[k].id != id ==> Updated(ps, id, u, now)[k] == ps[k]
    ensures ps[k].id == id ==> Updated(ps, id, u, now)[k] == Merge(ps[k], u, now)
    ensures ps[k].id == id ==> Updated(ps, id, u, now)[k].lastActivity == now
  {
    if k > 0 {
      UpdatedAt(ps[1..], id, u, now, k - 1);
    }
  }

  /** With no record carrying the id the list is written back unchanged. */
  lemma {:induction false} UpdatedAbsent(ps: seq<Project>, id: string, u: ProjectUpdate, now: string)
    requires forall k | 0 <= k < |ps| :: ps[k].id != id
    ensures Updated(ps, id, u, now) == ps
  {
    if ps != [] {
      UpdatedAbsent(ps[1..], id, u, now);
      assert ps == [ps[0]] + ps[1..];
    }
  }

  /** Unless the update itself supplies another id, the ids keep their order. */
  lemma UpdatedKeepsIds(ps: seq<Project>, id: string, u: ProjectUpdate, now: string)
    requires u.id == None || u.id == Some(id)
    ensures forall k | 0 <= k < |ps| :: Updated(ps, id, u, now)[k].id == ps[k].id
  {
    forall k | 0 <= k < |ps| ensures Updated(ps, id, u, now)[k].id == ps[k].id {
      UpdatedAt(ps, id, u, now, k);
    }
  }

  /** An update that supplies another id renames the matching record. */
  lemma UpdateCanRename(p: Project, now: string)
    requires p.id != "other"
    ensures Updated([p], p.id, ProjectUpdate(Some("other"), None, None, None, None, None, None,
                                             None, None, None, None, None), now)[0].id == "other"
  {
  }

  /** The browser's key-value store, as `saveProject`, `getProjects` and
      `updateProject` see it. */
  class Store {
    var entries: map<string, Entry>
    /** `typeof window !== "undefined"`. */
    const isBrowser: bool

    constructor (isBrowser: bool, entries: map<string, Entry>)
      ensures this.isBrowser == isBrowser && this.entries == entries
    {
      this.isBrowser := isBrowser;
      this.entries := entries;
    }

    function GetProjects(): seq<Project>
      reads this
    {
      ReadProjects(isBrowser, entries)
    }

    /** `saveProject`: outside a browser nothing is written; otherwise the key is
        overwritten with the saved list, even when what it held did not parse. */
    method SaveProject(p: Project)
      modifies this
      ensures !isBrowser ==> entries == old(entries)
      ensures isBrowser ==> entries == old(entries)[StorageKey := Parsed(SerializeAll(Saved(old(GetProjects()), p)))]
      ensures isBrowser ==> GetProjects() == Saved(old(GetProjects()), p)
      ensures isBrowser ==> GetProjects()[0] == p
    {
      if !isBrowser {
        return;
      }
      var existing := GetProjects();
      var updated := Saved(existing, p);
      entries := entries[StorageKey := Parsed(SerializeAll(updated))];
      ReviveSerialized(updated);
    }

    /** `updateProject`: read, merge the matching records, write back (browser only). */
    method UpdateProject(id: string, updates: ProjectUpdate, now: string)
      modifies this
      ensures !isBrowser ==> entries == old(entries)
      ensures isBrowser ==> entries == old(entries)[StorageKey := Parsed(SerializeAll(Updated(old(GetProjects()), id, updates, now)))]
      ensures isBrowser ==> GetProjects() == Updated(old(GetProjects()), id, updates, now)
    {
      var projects := GetProjects();
      var updated := Updated(projects, id, updates, now);
      if isBrowser {
        entries := entries[StorageKey := Parsed(SerializeAll(updated))];
        ReviveSerialized(updated);
      }
    }
  }

  /** Saving then reading back gives the saved record first (browser only). */
  method SaveThenRead(store: Store, p: Project) returns (r: seq<Project>)
    requires store.isBrowser
    modifies store
    ensures |r| >= 1 && r[0] == p
    ensures CountWhere(r, IdIs(p.id)) == 1
  {
    store.SaveProject(p);
    r := store.GetProjects();
    SavedShape(old(store.GetProjects()), p);
  }
}
