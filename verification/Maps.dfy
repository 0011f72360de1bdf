// Label maps (pkg/resources/map_utils.go and MapUpdateNeeded of k8s_deployment.go). A Go
// map is a reference that may be nil; so is a pointer to one.
module Maps {
  import opened Api

  type Entries = map<string, string>

  class GoMap {
    var entries: Entries

    constructor ()
      ensures entries == map[]
    {
      entries := map[];
    }
  }

  class MapPointer {
    var target: GoMap?

    constructor (target: GoMap?)
      ensures this.target == target
    {
      this.target := target;
    }
  }

  // Reading a nil map finds nothing.
  function EntriesOf(m: GoMap?): Entries
    reads m
  {
    if m == null then map[] else m.entries
  }

  // ---- What the functions are about ----------------------------------------

  // `desired` asks for an entry that `existing` does not have.
  ghost predicate UpdateNeeded(existing: Entries, desired: Entries) {
    exists k | k in desired :: k !in existing || existing[k] != desired[k]
  }

  // Merging changes something exactly when an update was needed, and then no longer is.
  lemma MergeMeetsNeed(existing: Entries, desired: Entries)
    ensures UpdateNeeded(existing, desired) <==> existing + desired != existing
    ensures !UpdateNeeded(existing + desired, desired)
    ensures existing + desired + desired == existing + desired
  {
    var merged := existing + desired;
    if !UpdateNeeded(existing, desired) {
      assert merged == existing;
    } else {
      var k :| k in desired && (k !in existing || existing[k] != desired[k]);
      assert merged[k] == desired[k];
    }
  }

  // The part of a map that has been visited.
  function Visited(m: Entries, visit: seq<string>): Entries {
    map k | k in m && k in visit :: m[k]
  }

  lemma VisitedAll(m: Entries, visit: seq<string>)
    requires Enumerates(visit, m.Keys)
    ensures Visited(m, visit) == m
  {
    assert forall k | k in m :: k in m.Keys;
  }

  lemma VisitedOneMore(m: Entries, visit: seq<string>, i: nat)
    requires i < |visit| && visit[i] in m
    ensures Visited(m, visit[..i + 1]) == Visited(m, visit[..i])[visit[i] := m[visit[i]]]
  {
    assert visit[..i + 1] == visit[..i] + [visit[i]];
  }

  // The next entry is visited for the first time.
  lemma VisitNext(wanted: Entries, visit: seq<string>, i: nat)
    requires Enumerates(visit, wanted.Keys) && i < |visit|
    ensures visit[i] in wanted && visit[i] !in Visited(wanted, visit[..i])
    ensures Visited(wanted, visit[..i + 1]) == Visited(wanted, visit[..i])[visit[i] := wanted[visit[i]]]
  {
    assert visit[i] in wanted.Keys;
    VisitedOneMore(wanted, visit, i);
    assert visit[i] !in visit[..i];
  }

  lemma MergeOneMore(before: Entries, seen: Entries, key: string, value: string)
    requires key !in seen
    ensures var now, more := before + seen, seen[key := value];
      && now[key := value] == before + more
      && (key in now && now[key] == value ==> now == before + more)
      && (UpdateNeeded(before, more) <==> UpdateNeeded(before, seen) || key !in now || now[key] != value)
  {
    NeedOneMore(before, seen, key, value);
  }

  lemma NeedOneMore(before: Entries, seen: Entries, key: string, value: string)
    requires key !in seen
    ensures UpdateNeeded(before, seen[key := value]) <==>
      UpdateNeeded(before, seen) || key !in before || before[key] != value
  {
    var more := seen[key := value];
    if UpdateNeeded(before, seen) {
      var k :| k in seen && (k !in before || before[k] != seen[k]);
      assert k in more && more[k] == seen[k];
    }
    assert more[key] == value;
  }

  // Where a merge stands after `i` of the visited keys.
  ghost predicate MergedUpTo(
      before: Entries, wanted: Entries, visit: seq<string>, i: nat, now: Entries, modified: bool) {
    && i <= |visit| && now == before + Visited(wanted, visit[..i])
    && (modified <==> UpdateNeeded(before, Visited(wanted, visit[..i])))
  }

  lemma MergedNext(before: Entries, wanted: Entries, visit: seq<string>, i: nat, now: Entries, modified: bool)
    requires Enumerates(visit, wanted.Keys) && i < |visit|
    requires MergedUpTo(before, wanted, visit, i, now, modified)
    ensures var key := visit[i];
      && key in wanted
      && (if key in now && now[key] == wanted[key] then MergedUpTo(before, wanted, visit, i + 1, now, modified)
          else MergedUpTo(before, wanted, visit, i + 1, now[key := wanted[key]], true))
  {
    VisitNext(wanted, visit, i);
    MergeOneMore(before, Visited(wanted, visit[..i]), visit[i], wanted[visit[i]]);
  }

  lemma MergedFirst(before: Entries, wanted: Entries, visit: seq<string>)
    ensures MergedUpTo(before, wanted, visit, 0, before, false)
  {
  }

  lemma MergedAll(before: Entries, wanted: Entries, visit: seq<string>, now: Entries, modified: bool)
    requires Enumerates(visit, wanted.Keys) && MergedUpTo(before, wanted, visit, |visit|, now, modified)
    ensures now == before + wanted && (modified <==> UpdateNeeded(before, wanted))
  {
    VisitedAll(wanted, visit);
    assert visit[..|visit|] == visit;
  }

  // ---- The functions -------------------------------------------------------

  // For a non-nil pointer, the map pointed to becomes the merge, in place unless it was nil;
  // the result tells whether that changed anything.
  method MergeMapStringString(existing: MapPointer?, desired: GoMap?, visit: seq<string>) returns (modified: bool)
    requires Enumerates(visit, EntriesOf(desired).Keys)
    modifies existing, if existing == null then null else existing.target
    ensures existing == null ==> !modified
    ensures existing != null ==> existing.target != null
    ensures existing != null && old(existing.target) != null ==> existing.target == old(existing.target)
    ensures existing != null && old(existing.target) == null ==> fresh(existing.target)
    ensures existing != null ==>
      existing.target.entries == old(EntriesOf(existing.target)) + old(EntriesOf(desired))
    ensures existing != null ==>
      (modified <==> UpdateNeeded(old(EntriesOf(existing.target)), old(EntriesOf(desired))))
  {
    if existing == null {
      return false;
    }
    if existing.target == null {
      existing.target := new GoMap();
    }
    modified := MergeInto(existing.target, desired, visit);
  }

  // The loop. The two maps may be one and the same.
  method MergeInto(into: GoMap, desired: GoMap?, visit: seq<string>) returns (modified: bool)
    requires Enumerates(visit, EntriesOf(desired).Keys)
    modifies into
    ensures into.entries == old(into.entries) + old(EntriesOf(desired))
    ensures modified <==> UpdateNeeded(old(into.entries), old(EntriesOf(desired)))
  {
    ghost var before, wanted := into.entries, EntriesOf(desired);
    modified := false;
    MergedFirst(before, wanted, visit);
    for i := 0 to |visit|
      invariant MergedUpTo(before, wanted, visit, i, into.entries, modified)
      invariant EntriesOf(desired) == wanted
    {
      var key := visit[i];
      MergedNext(before, wanted, visit, i, into.entries, modified);
      var value := EntriesOf(desired)[key];
      if key !in into.entries || into.entries[key] != value {
        into.entries := into.entries[key := value];
        modified := true;
      }
    }
    MergedAll(before, wanted, visit, into.entries, modified);
  }

  method MapUpdateNeeded(existing: GoMap?, desired: GoMap?, visit: seq<string>) returns (needed: bool)
    requires Enumerates(visit, EntriesOf(desired).Keys)
    ensures needed <==> UpdateNeeded(EntriesOf(existing), EntriesOf(desired))
  {
    var has, wanted := EntriesOf(existing), EntriesOf(desired);
    for i := 0 to |visit|
      invariant forall j | 0 <= j < i :: visit[j] in has && has[visit[j]] == wanted[visit[j]]
    {
      if visit[i] !in has || wanted[visit[i]] != has[visit[i]] {
        return true;
      }
    }
    return false;
  }

  // A copy of its own; nil stays nil.
  method CopyMap(m: GoMap?, visit: seq<string>) returns (copy: GoMap?)
    requires Enumerates(visit, EntriesOf(m).Keys)
    ensures copy == null <==> m == null
    ensures copy != null ==> fresh(copy) && copy.entries == m.entries
  {
    if m == null {
      return null;
    }
    copy := new GoMap();
    for i := 0 to |visit|
      invariant copy.entries == Visited(m.entries, visit[..i])
    {
      VisitedOneMore(m.entries, visit, i);
      copy.entries := copy.entries[visit[i] := m.entries[visit[i]]];
    }
    VisitedAll(m.entries, visit);
  }
}
