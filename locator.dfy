/** The upward search for the project's configuration file. */
module Locator {
  import opened Wrappers
  import opened Paths

  /**
   * `find_remote_target_file_in_parents`: look for `.remote_target` in `start`, then in
   * each parent in turn, and stop at the first directory that holds it or at the root.
   * Any path it returns is a regular file named `.remote_target` whose directory is an
   * ancestor-or-self of `start`. It terminates because each call is on a strictly
   * shorter path: the guard `parent == start` holds only at the root.
   */
  function Find(files: Files, start: Path): (r: Option<Path>)
    ensures r.Some? ==> r.value in files
    ensures r.Some? ==> |r.value| > 0 && r.value == Marker(r.value[..|r.value| - 1])
    ensures r.Some? ==> r.value[..|r.value| - 1] <= start
    decreases |start|
  {
    if HasMarker(files, start) then
      Some(Marker(start))
    else
      var parent := Parent(start);
      if parent == start then None else Find(files, parent)
  }

  /**
   * Directory `start[..k]` is the nearest ancestor-or-self of `start` holding the file:
   * it holds it, and no directory strictly between it and `start` does.
   */
  predicate NearestMarked(files: Files, start: Path, k: nat)
    requires k <= |start|
  {
    HasMarker(files, start[..k]) &&
    forall j :: k < j <= |start| ==> !HasMarker(files, start[..j])
  }

  /** A file directly in the start directory is returned without looking any higher. */
  lemma FindAtStart(files: Files, start: Path)
    requires HasMarker(files, start)
    ensures Find(files, start) == Some(Marker(start))
  {
  }

  /** At the root, without the file there, the search gives up. */
  lemma FindAtRoot(files: Files)
    requires !HasMarker(files, [])
    ensures Find(files, []) == None
  {
  }

  /** The ancestors of the parent of `start` are the proper ancestors of `start`. */
  lemma ParentPrefixes(start: Path)
    requires start != []
    ensures forall j :: 0 <= j <= |Parent(start)| ==> Parent(start)[..j] == start[..j]
  {
  }

  /** The search finds nothing exactly when no ancestor-or-self of `start` holds the file. */
  lemma {:induction false} FindNoneIff(files: Files, start: Path)
    ensures Find(files, start).None? <==>
            forall k :: 0 <= k <= |start| ==> !HasMarker(files, start[..k])
  {
    if HasMarker(files, start) {
      assert start[..|start|] == start;
    } else if start != [] {
      var parent := Parent(start);
      FindNoneIff(files, parent);
      ParentPrefixes(start);
      assert start[..|start|] == start;
    }
  }

  /** Below an ancestor-free `start`, being nearest in `start` and in its parent agree. */
  lemma NearestMarkedInParent(files: Files, start: Path, k: nat)
    requires start != [] && !HasMarker(files, start) && k < |start|
    ensures NearestMarked(files, start, k) <==> NearestMarked(files, Parent(start), k)
  {
    ParentPrefixes(start);
    assert start[..|start|] == start;
  }

  /** The search returns the file of directory `start[..k]` exactly when that directory is the nearest one holding it. */
  lemma {:induction false} FindNearest(files: Files, start: Path, k: nat)
    requires k <= |start|
    ensures Find(files, start) == Some(Marker(start[..k])) <==> NearestMarked(files, start, k)
  {
    assert start[..|start|] == start;
    if HasMarker(files, start) {
      if k < |start| {
        assert |Marker(start[..k])| != |Marker(start)|;
        assert !NearestMarked(files, start, k);
      }
    } else if start != [] {
      var parent := Parent(start);
      assert Find(files, start) == Find(files, parent);
      if k < |start| {
        FindNearest(files, parent, k);
        NearestMarkedInParent(files, start, k);
        assert parent[..k] == start[..k];
      } else {
        assert !NearestMarked(files, start, k);
        var r := Find(files, parent);
        assert r.Some? ==> |r.value| <= |parent| + 1;
      }
    }
  }

  /**
   * The search is a pure probe of the ancestor chain: two file systems that agree on
   * which ancestors of `start` hold the file give the same answer.
   */
  lemma {:induction false} FindOnlyProbesAncestors(files1: Files, files2: Files, start: Path)
    requires forall k :: 0 <= k <= |start| ==>
               (HasMarker(files1, start[..k]) <==> HasMarker(files2, start[..k]))
    ensures Find(files1, start) == Find(files2, start)
  {
    assert start[..|start|] == start;
    if !HasMarker(files1, start) && start != [] {
      ParentPrefixes(start);
      FindOnlyProbesAncestors(files1, files2, Parent(start));
    }
  }
}
