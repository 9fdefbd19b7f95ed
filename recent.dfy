/**
 * The launcher's recent-projects list: one entry per project directory, newest first.
 * Reading and writing the list to local storage is not modelled.
 */
module Recent {
  import opened Seqs
  import opened Sorting

  /** An entry; `lastOpenedAt` is the time its ISO timestamp denotes, in milliseconds. */
  datatype RecentProject = RecentProject(name: string, dir: string, createdAt: string, lastOpenedAt: int)

  function Dir(p: RecentProject): string {
    p.dir
  }

  /** The comparator `time(b) - time(a)`, as "at most equal": newer entries first. */
  function NewestFirst(a: RecentProject, b: RecentProject): bool {
    b.lastOpenedAt - a.lastOpenedAt <= 0
  }

  lemma NewestFirstIsTotalPreorder()
    ensures Total(NewestFirst) && Transitive(NewestFirst)
  {
  }

  function SameDir(dir: string): RecentProject -> bool {
    (p: RecentProject) => p.dir == dir
  }

  function OtherDir(dir: string): RecentProject -> bool {
    (p: RecentProject) => p.dir != dir
  }

  /** The sort in `sortAndSave`. */
  function SortedNewestFirst(list: seq<RecentProject>): (r: seq<RecentProject>)
    ensures multiset(r) == multiset(list)
    ensures SortedBy(r, NewestFirst)
  {
    NewestFirstIsTotalPreorder();
    SortBySorted(list, NewestFirst);
    SortBy(list, NewestFirst)
  }

  /**
   * The list update in `addOrUpdate`: the first entry with the same directory is replaced
   * (`{...old, ...project}`, every field of which comes from `project`), otherwise the
   * project is appended.
   */
  function Upserted(list: seq<RecentProject>, p: RecentProject): (r: seq<RecentProject>)
    ensures var k := FindIndex(list, SameDir(p.dir));
            && (k == -1 ==> r == list + [p])
            && (k != -1 ==> r == list[k := p])
  {
    var k := FindIndex(list, SameDir(p.dir));
    if k == -1 then list + [p] else list[k := p]
  }

  function AddedOrUpdated(list: seq<RecentProject>, p: RecentProject): seq<RecentProject> {
    SortedNewestFirst(Upserted(list, p))
  }

  function WithoutDir(list: seq<RecentProject>, dir: string): seq<RecentProject> {
    SortedNewestFirst(Filter(list, OtherDir(dir)))
  }

  lemma UpsertedDistinct(list: seq<RecentProject>, p: RecentProject)
    requires DistinctBy(list, Dir)
    ensures DistinctBy(Upserted(list, p), Dir)
  {
    var k := FindIndex(list, SameDir(p.dir));
    var r := Upserted(list, p);
    if k != -1 {
      assert forall i :: 0 <= i < |r| ==> r[i].dir == list[i].dir;
    } else {
      assert forall i :: 0 <= i < |list| ==> list[i].dir != p.dir;
    }
  }

  /** The list update before sorting: the project plus every entry of another directory. */
  lemma UpsertedContents(list: seq<RecentProject>, p: RecentProject)
    requires DistinctBy(list, Dir)
    ensures var u := Upserted(list, p);
            && p in u
            && (forall i :: 0 <= i < |list| && list[i].dir != p.dir ==> list[i] in u)
            && (forall i :: 0 <= i < |u| ==> u[i] == p || (u[i] in list && u[i].dir != p.dir))
  {
    var u := Upserted(list, p);
    var k := FindIndex(list, SameDir(p.dir));
    if k == -1 {
      assert u[|list|] == p;
    } else {
      assert u[k] == p;
      forall i | 0 <= i < |list| && list[i].dir != p.dir ensures list[i] in u {
        assert u[i] == list[i];
      }
      forall i | 0 <= i < |u| && u[i] != p ensures u[i] in list && u[i].dir != p.dir {
        assert i != k;
        assert Dir(list[i]) != Dir(list[k]);
      }
    }
  }

  /**
   * `addOrUpdate` keeps one entry per directory: the project is in the list, an entry for
   * another directory survives, and nothing else is added; the list is newest first.
   */
  lemma AddOrUpdateSpec(list: seq<RecentProject>, p: RecentProject)
    requires DistinctBy(list, Dir)
    ensures var r := AddedOrUpdated(list, p);
            && DistinctBy(r, Dir)
            && SortedBy(r, NewestFirst)
            && p in r
            && (forall i :: 0 <= i < |list| && list[i].dir != p.dir ==> list[i] in r)
            && (forall i :: 0 <= i < |r| ==> r[i] == p || (r[i] in list && r[i].dir != p.dir))
            && |r| == (if FindIndex(list, SameDir(p.dir)) == -1 then |list| + 1 else |list|)
  {
    var u := Upserted(list, p);
    var r := AddedOrUpdated(list, p);
    UpsertedDistinct(list, p);
    SortByDistinctBy(u, NewestFirst, Dir);
    UpsertedContents(list, p);
    assert multiset(r) == multiset(u);
    assert p in multiset(u);
    forall i | 0 <= i < |list| && list[i].dir != p.dir ensures list[i] in r {
      assert list[i] in multiset(u);
    }
    forall i | 0 <= i < |r| ensures r[i] == p || (r[i] in list && r[i].dir != p.dir) {
      assert r[i] in multiset(u);
      var j :| 0 <= j < |u| && u[j] == r[i];
    }
  }

  /** `remove` drops exactly the entries of that directory and keeps the rest, newest first. */
  lemma RemoveSpec(list: seq<RecentProject>, dir: string)
    ensures var r := WithoutDir(list, dir);
            && SortedBy(r, NewestFirst)
            && (forall i :: 0 <= i < |r| ==> r[i].dir != dir && r[i] in list)
            && (forall i :: 0 <= i < |list| && list[i].dir != dir ==> list[i] in r)
            && (DistinctBy(list, Dir) ==> DistinctBy(r, Dir))
  {
    var f := Filter(list, OtherDir(dir));
    var r := WithoutDir(list, dir);
    forall i | 0 <= i < |r| ensures r[i].dir != dir && r[i] in list {
      assert r[i] in multiset(f);
    }
    forall i | 0 <= i < |list| && list[i].dir != dir ensures list[i] in r {
      assert list[i] in multiset(f);
    }
    if DistinctBy(list, Dir) {
      FilterDistinctBy(list, OtherDir(dir), Dir);
      SortByDistinctBy(f, NewestFirst, Dir);
    }
  }

  /** Adding the same project twice is the same as adding it once. */
  lemma AddOrUpdateIdempotent(list: seq<RecentProject>, p: RecentProject)
    requires DistinctBy(list, Dir)
    ensures AddedOrUpdated(AddedOrUpdated(list, p), p) == AddedOrUpdated(list, p)
  {
    var r := AddedOrUpdated(list, p);
    AddOrUpdateSpec(list, p);
    var k := FindIndex(r, SameDir(p.dir));
    var j :| 0 <= j < |r| && r[j] == p;
    assert k != -1;
    assert Dir(r[k]) == Dir(r[j]);
    assert k == j;
    assert Upserted(r, p) == r;
    SortBySortedIdentity(r, NewestFirst);
  }

  /** Removing a directory twice is the same as removing it once. */
  lemma RemoveIdempotent(list: seq<RecentProject>, dir: string)
    ensures WithoutDir(WithoutDir(list, dir), dir) == WithoutDir(list, dir)
  {
    var r := WithoutDir(list, dir);
    RemoveSpec(list, dir);
    assert Filter(r, OtherDir(dir)) == r;
    SortBySortedIdentity(r, NewestFirst);
  }

  class RecentProjectsStore {
    var list: seq<RecentProject>

    constructor ()
      ensures list == []
    {
      list := [];
    }

    method AddOrUpdate(project: RecentProject)
      modifies this
      ensures list == AddedOrUpdated(old(list), project)
    {
      var index := FindIndex(list, SameDir(project.dir));
      if index != -1 {
        list := list[index := project];
      } else {
        list := list + [project];
      }
      list := SortedNewestFirst(list);
    }

    method Remove(dir: string)
      modifies this
      ensures list == WithoutDir(old(list), dir)
    {
      list := Filter(list, OtherDir(dir));
      list := SortedNewestFirst(list);
    }
  }
}
