// Status conditions (pkg/condition/condition.go): an association list, updated without
// touching the caller's slice, that remembers when each status was last entered.
module Conditions {
  import opened Text
  import opened Api

  // ---- What one update means -----------------------------------------------

  predicate SameContent(a: Condition, b: Condition) {
    a.status == b.status && a.reason == b.reason && a.message == b.message
  }

  // The condition that replaces `was` when `incoming` arrives at time `now`.
  function Revise(was: Condition, incoming: Condition, now: int): Condition {
    if SameContent(was, incoming) then was
    else incoming.(since := if was.status == incoming.status then was.since else now)
  }

  function Upsert(list: seq<Condition>, incoming: Condition, now: int): seq<Condition> {
    if list == [] then [incoming.(since := now)]
    else if list[0].ctype == incoming.ctype then [Revise(list[0], incoming, now)] + list[1..]
    else [list[0]] + Upsert(list[1..], incoming, now)
  }

  datatype Update = Update(condition: Condition, now: int)

  // A whole sequence of updates, oldest first.
  function After(list: seq<Condition>, updates: seq<Update>): seq<Condition>
    decreases |updates|
  {
    if updates == [] then list
    else
      var last := updates[|updates| - 1];
      Upsert(After(list, updates[..|updates| - 1]), last.condition, last.now)
  }

  // ---- The association list as a map ---------------------------------------

  function Lookup(list: seq<Condition>, ctype: ConditionType): Option<Condition> {
    if list == [] then None
    else if list[0].ctype == ctype then Some(list[0])
    else Lookup(list[1..], ctype)
  }

  predicate UniqueTypes(list: seq<Condition>) {
    forall i, j | 0 <= i < j < |list| :: list[i].ctype != list[j].ctype
  }

  lemma {:induction false} LookupUpsert(list: seq<Condition>, incoming: Condition, now: int, ctype: ConditionType)
    ensures Lookup(Upsert(list, incoming, now), ctype) ==
      if ctype != incoming.ctype then Lookup(list, ctype)
      else match Lookup(list, ctype)
        case None => Some(incoming.(since := now))
        case Some(was) => Some(Revise(was, incoming, now))
  {
    if list != [] && list[0].ctype != incoming.ctype {
      LookupUpsert(list[1..], incoming, now, ctype);
      assert Upsert(list, incoming, now)[1..] == Upsert(list[1..], incoming, now);
    } else if list != [] {
      assert Upsert(list, incoming, now)[1..] == list[1..];
    }
  }

  lemma {:induction false} UpsertTypes(list: seq<Condition>, incoming: Condition, now: int)
    requires UniqueTypes(list)
    ensures var next := Upsert(list, incoming, now);
      && UniqueTypes(next)
      && |list| <= |next|
      && (forall i | 0 <= i < |list| :: next[i].ctype == list[i].ctype)
      && (forall i | |list| <= i < |next| :: next[i].ctype == incoming.ctype)
  {
    if list != [] && list[0].ctype != incoming.ctype {
      var next := Upsert(list, incoming, now);
      assert UniqueTypes(list[1..]);
      UpsertTypes(list[1..], incoming, now);
      assert next[1..] == Upsert(list[1..], incoming, now);
      forall i, j | 0 <= i < j < |next|
        ensures next[i].ctype != next[j].ctype
      {
        assert next[j] == next[1..][j - 1];
        if i > 0 {
          assert next[i] == next[1..][i - 1];
        } else if j < |list| {
          assert next[1..][j - 1].ctype == list[1..][j - 1].ctype;
        }
      }
      forall i | 0 <= i < |list|
        ensures next[i].ctype == list[i].ctype
      {
        assert i > 0 ==> next[i] == next[1..][i - 1] && list[i] == list[1..][i - 1];
      }
      forall i | |list| <= i < |next|
        ensures next[i].ctype == incoming.ctype
      {
        assert next[i] == next[1..][i - 1];
      }
    }
  }

  // ---- Against the history of updates --------------------------------------

  // The latest update of one condition type, if any.
  function Latest(updates: seq<Update>, ctype: ConditionType): Option<Update>
    decreases |updates|
  {
    if updates == [] then None
    else
      var last := updates[|updates| - 1];
      if last.condition.ctype == ctype then Some(last)
      else Latest(updates[..|updates| - 1], ctype)
  }

  // When the current unbroken run of the type's latest status began: the time of the
  // first of the trailing updates of that type that all carry this status.
  function RunStart(updates: seq<Update>, ctype: ConditionType): int
    decreases |updates|
  {
    if updates == [] then 0
    else
      var last, before := updates[|updates| - 1], updates[..|updates| - 1];
      if last.condition.ctype != ctype then RunStart(before, ctype)
      else match Latest(before, ctype)
        case Some(u) => if u.condition.status == last.condition.status then RunStart(before, ctype) else last.now
        case None => last.now
  }

  // After any updates, starting from nothing: one entry per type, holding the latest
  // status, reason and message, dated at the start of the run of that status.
  lemma {:induction false} HistoryRefinesMap(updates: seq<Update>, ctype: ConditionType)
    ensures UniqueTypes(After([], updates))
    ensures Lookup(After([], updates), ctype) ==
      match Latest(updates, ctype)
      case None => None
      case Some(u) => Some(u.condition.(since := RunStart(updates, ctype)))
    decreases |updates|
  {
    if updates != [] {
      var last, before := updates[|updates| - 1], updates[..|updates| - 1];
      HistoryRefinesMap(before, ctype);
      UpsertTypes(After([], before), last.condition, last.now);
      LookupUpsert(After([], before), last.condition, last.now, ctype);
      LatestType(before, ctype);
    }
  }

  lemma LatestType(updates: seq<Update>, ctype: ConditionType)
    ensures Latest(updates, ctype).Some? ==> Latest(updates, ctype).value.condition.ctype == ctype
    decreases |updates|
  {
  }

  lemma {:induction false} ReadyIsLookup(list: seq<Condition>)
    ensures Ready(list) <==>
      && Lookup(list, ReadyType).Some?
      && Lookup(list, ReadyType).value.status == True
  {
    if list != [] && list[0].ctype != ReadyType {
      ReadyIsLookup(list[1..]);
    }
  }

  // Ready() is the status the last Ready update asked for.
  lemma {:induction false} ReadyIsLastReported(updates: seq<Update>)
    ensures Ready(After([], updates)) <==>
      && Latest(updates, ReadyType).Some?
      && Latest(updates, ReadyType).value.condition.status == True
  {
    HistoryRefinesMap(updates, ReadyType);
    ReadyIsLookup(After([], updates));
  }

  ghost predicate ClockNeverGoesBack(updates: seq<Update>) {
    forall i, j | 0 <= i <= j < |updates| :: updates[i].now <= updates[j].now
  }

  // The update at `i` begins the current run of the type: it carries the latest status, so do
  // all later updates of the type, and the one before it, if any, carried another.
  ghost predicate BeginsRun(updates: seq<Update>, ctype: ConditionType, i: nat) {
    && i < |updates| && updates[i].condition.ctype == ctype
    && (forall j | i <= j < |updates| && updates[j].condition.ctype == ctype ::
          updates[j].condition.status == updates[i].condition.status)
    && match Latest(updates[..i], ctype)
       case None => true
       case Some(u) => u.condition.status != updates[i].condition.status
  }

  // The latest update of a type is no earlier than any other.
  lemma {:induction false} LatestIsLast(updates: seq<Update>, ctype: ConditionType, i: nat) returns (j: nat)
    requires i < |updates| && updates[i].condition.ctype == ctype
    ensures i <= j < |updates| && Latest(updates, ctype) == Some(updates[j])
    ensures updates[j].condition.ctype == ctype
    decreases |updates|
  {
    j := |updates| - 1;
    if updates[j].condition.ctype != ctype {
      j := LatestIsLast(updates[..j], ctype, i);
    }
  }

  // Dropping the last update, unless the run begins with it.
  lemma RunShortens(updates: seq<Update>, ctype: ConditionType, i: nat)
    requires BeginsRun(updates, ctype, i) && i < |updates| - 1
    ensures BeginsRun(updates[..|updates| - 1], ctype, i)
  {
    var before := updates[..|updates| - 1];
    assert before[..i] == updates[..i];
    assert forall j | i <= j < |before| :: before[j] == updates[j];
  }

  lemma {:induction false} RunStartsThere(updates: seq<Update>, ctype: ConditionType, i: nat)
    requires BeginsRun(updates, ctype, i)
    ensures RunStart(updates, ctype) == updates[i].now
    decreases |updates|
  {
    var n := |updates| - 1;
    if i < n {
      RunShortens(updates, ctype, i);
      RunStartsThere(updates[..n], ctype, i);
      var j := LatestIsLast(updates[..n], ctype, i);
      assert updates[..n][j] == updates[j];
    }
  }

  lemma RunGoesOn(updates: seq<Update>, ctype: ConditionType, i: nat)
    requires updates != []
    requires var last, before := updates[|updates| - 1], updates[..|updates| - 1];
      && BeginsRun(before, ctype, i)
      && (last.condition.ctype != ctype || last.condition.status == before[i].condition.status)
    ensures BeginsRun(updates, ctype, i)
  {
    var n := |updates| - 1;
    assert updates[..n][..i] == updates[..i];
    assert updates[..n][i] == updates[i];
    assert forall j | i <= j < n :: updates[j] == updates[..n][j];
  }

  lemma {:induction false} RunBegins(updates: seq<Update>, ctype: ConditionType) returns (i: nat)
    requires Latest(updates, ctype).Some?
    ensures BeginsRun(updates, ctype, i)
    ensures updates[i].condition.status == Latest(updates, ctype).value.condition.status
    decreases |updates|
  {
    var n := |updates| - 1;
    var last, before := updates[n], updates[..n];
    if last.condition.ctype != ctype
       || (Latest(before, ctype).Some? && Latest(before, ctype).value.condition.status == last.condition.status) {
      i := RunBegins(before, ctype);
      RunGoesOn(updates, ctype, i);
    } else {
      i := n;
    }
  }

  // The current run of a status has a first update, and the entry of its type is dated by
  // it; with a clock that never goes back, no update of the run is dated earlier.
  lemma {:induction false} TransitionTimes(updates: seq<Update>, ctype: ConditionType)
    requires Latest(updates, ctype).Some?
    ensures exists i: nat :: BeginsRun(updates, ctype, i)
    ensures Lookup(After([], updates), ctype).Some?
    ensures forall i: nat | BeginsRun(updates, ctype, i) ::
      && Lookup(After([], updates), ctype).value.since == updates[i].now
      && Lookup(After([], updates), ctype).value.status == updates[i].condition.status
      && (ClockNeverGoesBack(updates) ==> forall j | i <= j < |updates| :: updates[i].now <= updates[j].now)
  {
    HistoryRefinesMap(updates, ctype);
    var first := RunBegins(updates, ctype);
    forall i: nat | BeginsRun(updates, ctype, i)
      ensures updates[i].now == RunStart(updates, ctype)
      ensures updates[i].condition.status == Latest(updates, ctype).value.condition.status
    {
      RunStartsThere(updates, ctype, i);
      var j := LatestIsLast(updates, ctype, i);
    }
  }

  // ---- The code ------------------------------------------------------------

  // A Go slice of conditions; null is nil.
  function Contents(slice: array?<Condition>): seq<Condition>
    reads slice
  {
    if slice == null then [] else slice[..]
  }

  lemma {:induction false} UpsertAt(list: seq<Condition>, incoming: Condition, now: int, i: nat)
    requires i < |list| && list[i].ctype == incoming.ctype
    requires forall j | 0 <= j < i :: list[j].ctype != incoming.ctype
    ensures Upsert(list, incoming, now) == list[i := Revise(list[i], incoming, now)]
  {
    if i > 0 {
      UpsertAt(list[1..], incoming, now, i - 1);
    }
  }

  lemma {:induction false} UpsertAppends(list: seq<Condition>, incoming: Condition, now: int)
    requires forall c | c in list :: c.ctype != incoming.ctype
    ensures Upsert(list, incoming, now) == list + [incoming.(since := now)]
  {
    if list != [] {
      UpsertAppends(list[1..], incoming, now);
      assert list == [list[0]] + list[1..];
    }
  }

  // The caller's slice is only read; the flag says exactly whether the list changed.
  method AddOrUpdateStatusCondition(conditions: array?<Condition>, newCondition: Condition, now: int)
    returns (res: array<Condition>, updated: bool)
    ensures res[..] == Upsert(Contents(conditions), newCondition, now)
    ensures updated <==> res[..] != Contents(conditions)
    ensures !updated ==> res == conditions
    ensures updated ==> fresh(res)
  {
    var stamped := newCondition.(since := now);
    if conditions == null {
      res := new Condition[1](_ => stamped);
      return res, true;
    }
    for i := 0 to conditions.Length
      invariant forall j | 0 <= j < i :: conditions[j].ctype != newCondition.ctype
    {
      var cond := conditions[i];
      if cond.ctype == newCondition.ctype {
        UpsertAt(conditions[..], newCondition, now, i);
        if SameContent(cond, newCondition) {
          assert conditions[..] == conditions[..][i := cond];
          return conditions, false;
        }
        if newCondition.status == cond.status {
          stamped := stamped.(since := cond.since);
        }
        res := new Condition[conditions.Length](
          k requires 0 <= k < conditions.Length reads conditions => conditions[k]);
        res[i] := stamped;
        assert res[..] == conditions[..][i := stamped];
        assert res[..][i] != conditions[..][i];
        return res, true;
      }
    }
    UpsertAppends(conditions[..], newCondition, now);
    var n := conditions.Length;
    res := new Condition[n + 1](k requires 0 <= k reads conditions => if k < n then conditions[k] else stamped);
    assert res[..] == conditions[..] + [stamped];
    updated := true;
  }

  // The updates one call makes: each condition at its own reading of the clock.
  function Batch(newConditions: seq<Condition>, clock: seq<int>): (updates: seq<Update>)
    requires |clock| == |newConditions|
    ensures |updates| == |newConditions|
  {
    seq(|newConditions|, i requires 0 <= i < |newConditions| => Update(newConditions[i], clock[i]))
  }

  ghost predicate ChangesAt(list: seq<Condition>, updates: seq<Update>, i: nat)
    requires i < |updates|
  {
    After(list, updates[..i + 1]) != After(list, updates[..i])
  }

  lemma AfterOneMore(list: seq<Condition>, updates: seq<Update>, i: nat)
    requires i < |updates|
    ensures After(list, updates[..i + 1])
         == Upsert(After(list, updates[..i]), updates[i].condition, updates[i].now)
  {
    assert updates[..i + 1][..i] == updates[..i];
  }

  // Where the call stands after `n` of the conditions.
  ghost predicate UpTo(before: seq<Condition>, updates: seq<Update>, n: nat, now: seq<Condition>, updated: bool) {
    && n <= |updates| && now == After(before, updates[..n])
    && (updated <==> exists i | 0 <= i < n :: ChangesAt(before, updates, i))
  }

  lemma UpToNext(
      before: seq<Condition>, updates: seq<Update>, n: nat, now: seq<Condition>, next: seq<Condition>, updated: bool)
    requires UpTo(before, updates, n, now, updated) && n < |updates|
    requires next == Upsert(now, updates[n].condition, updates[n].now)
    ensures UpTo(before, updates, n + 1, next, updated || next != now)
  {
    AfterOneMore(before, updates, n);
    assert next != now <==> ChangesAt(before, updates, n);
  }

  lemma UpToEnd(before: seq<Condition>, updates: seq<Update>, now: seq<Condition>, updated: bool)
    requires UpTo(before, updates, |updates|, now, updated)
    ensures now == After(before, updates)
    ensures updated <==> exists i | 0 <= i < |updates| :: ChangesAt(before, updates, i)
  {
    assert updates[..|updates|] == updates;
  }

  // The flag tells whether some condition, when its turn came, changed the list.
  method AddOrUpdateStatusConditions(conditions: array?<Condition>, newConditions: seq<Condition>, clock: seq<int>)
    returns (res: array?<Condition>, atLeastOneUpdated: bool)
    requires |clock| == |newConditions|
    ensures Contents(res) == After(Contents(conditions), Batch(newConditions, clock))
    ensures !atLeastOneUpdated ==> res == conditions
    ensures atLeastOneUpdated <==>
      exists i | 0 <= i < |newConditions| :: ChangesAt(Contents(conditions), Batch(newConditions, clock), i)
  {
    ghost var updates := Batch(newConditions, clock);
    ghost var list := Contents(conditions);
    res, atLeastOneUpdated := conditions, false;
    for i := 0 to |newConditions|
      invariant UpTo(list, updates, i, Contents(res), atLeastOneUpdated)
      invariant !atLeastOneUpdated ==> res == conditions
    {
      ghost var now := Contents(res);
      var updated;
      res, updated := AddOrUpdateStatusCondition(res, newConditions[i], clock[i]);
      UpToNext(list, updates, i, now, Contents(res), atLeastOneUpdated);
      atLeastOneUpdated := atLeastOneUpdated || updated;
    }
    UpToEnd(list, updates, Contents(res), atLeastOneUpdated);
  }
}
