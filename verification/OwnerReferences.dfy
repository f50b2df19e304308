/** Owner reference lists of a ClusterDeployment: what adopting and orphaning do
    to the entry of one AgentCluster, and to everybody else's. */
module OwnerReferences {
  import opened Wrappers
  import opened Text

  datatype OwnerReference = OwnerReference(apiVersion: string, kind: string, name: string, uid: string)
  type Owners = seq<OwnerReference>

  /** The group of an API version; None if it does not parse. */
  function Group(apiVersion: string): Option<string> {
    if apiVersion == "" || apiVersion == "/" then Some("")
    else
      var slash := Index(apiVersion, '/');
      if slash < 0 then Some("")
      else if Lacks(apiVersion[slash + 1..], '/') then Some(apiVersion[..slash])
      else None
  }

  /** A group, a slash and a version; a version alone is in the empty group; two slashes
      do not parse. */
  lemma GroupOfParts(group: string, version: string, more: string)
    requires Lacks(group, '/') && Lacks(version, '/') && (group != "" || version != "")
    ensures Group(group + "/" + version) == Some(group)
    ensures Group(version) == Some("")
    ensures Group(group + "/" + version + "/" + more) == None
  {
    FirstSlash(group, version);
    FirstSlash(group, version + "/" + more);
    assert group + "/" + version + "/" + more == group + "/" + (version + "/" + more);
    assert (version + "/" + more)[|version|] == '/';
  }

  lemma FirstSlash(a: string, b: string)
    requires Lacks(a, '/')
    ensures var s := a + "/" + b; Index(s, '/') == |a| && s[..|a|] == a && s[|a| + 1..] == b
  {
    var s := a + "/" + b;
    assert s[|a|] == '/' && s[..|a|] == a && s[|a| + 1..] == b;
    assert forall j | 0 <= j < |a| :: s[j] == a[j];
  }

  /** The two entries stand for the same object: group, kind and name. The version
      and the UID do not count. */
  predicate SameObject(a: OwnerReference, b: OwnerReference) {
    Group(a.apiVersion).Some? && Group(a.apiVersion) == Group(b.apiVersion) && a.kind == b.kind && a.name == b.name
  }

  /** IsOwnedByObject. */
  predicate IsOwnedBy(owners: Owners, me: OwnerReference) {
    exists i | 0 <= i < |owners| :: SameObject(owners[i], me)
  }

  /** SetOwnerReference: the first entry for the object is replaced, else one is
      added at the end. */
  function Upsert(owners: Owners, me: OwnerReference): Owners {
    if owners == [] then [me]
    else if SameObject(owners[0], me) then [me] + owners[1..]
    else [owners[0]] + Upsert(owners[1..], me)
  }

  /** The list without the entries that equal `me` in every field. */
  function Without(owners: Owners, me: OwnerReference): Owners {
    if owners == [] then []
    else
      var n := |owners| - 1;
      Without(owners[..n], me) + if owners[n] == me then [] else [owners[n]]
  }

  // ---- What is observed ----------------------------------------------------------

  /** The entries of other objects, in order. */
  function OthersOf(owners: Owners, me: OwnerReference): Owners {
    if owners == [] then []
    else (if SameObject(owners[0], me) then [] else [owners[0]]) + OthersOf(owners[1..], me)
  }

  /** How many entries there are for the object. */
  function Entries(owners: Owners, me: OwnerReference): nat {
    if owners == [] then 0
    else (if SameObject(owners[0], me) then 1 else 0) + Entries(owners[1..], me)
  }

  /** The entries for the object also agree in version and UID. */
  predicate Agreeing(owners: Owners, me: OwnerReference) {
    forall i | 0 <= i < |owners| && SameObject(owners[i], me) :: owners[i] == me
  }

  predicate Parses(me: OwnerReference) {
    Group(me.apiVersion).Some?
  }

  lemma AgreeingParts(a: Owners, b: Owners, me: OwnerReference)
    ensures Agreeing(a + b, me) <==> Agreeing(a, me) && Agreeing(b, me)
  {
    var ab := a + b;
    assert forall i | 0 <= i < |a| :: ab[i] == a[i];
    assert forall i | 0 <= i < |b| :: ab[|a| + i] == b[i];
  }

  lemma {:induction false} OthersOfAppend(a: Owners, b: Owners, me: OwnerReference)
    ensures OthersOf(a + b, me) == OthersOf(a, me) + OthersOf(b, me)
    ensures Entries(a + b, me) == Entries(a, me) + Entries(b, me)
  {
    if a == [] {
      assert a + b == b;
    } else {
      assert (a + b)[1..] == a[1..] + b;
      OthersOfAppend(a[1..], b, me);
    }
  }

  lemma {:induction false} EntriesZero(owners: Owners, me: OwnerReference)
    ensures Entries(owners, me) == 0 <==> !IsOwnedBy(owners, me)
    ensures Entries(owners, me) == 0 ==> OthersOf(owners, me) == owners
  {
    if owners != [] {
      EntriesZero(owners[1..], me);
      if IsOwnedBy(owners[1..], me) {
        var j :| 0 <= j < |owners[1..]| && SameObject(owners[1..][j], me);
        assert SameObject(owners[j + 1], me);
      }
      if IsOwnedBy(owners, me) && !SameObject(owners[0], me) {
        var j :| 0 <= j < |owners| && SameObject(owners[j], me);
        assert SameObject(owners[1..][j - 1], me);
      }
    }
  }

  /** Adopting keeps everybody else's entries and leaves at least one for the
      object, and exactly one if there was at most one. */
  lemma {:induction false} UpsertEffect(owners: Owners, me: OwnerReference)
    requires Parses(me)
    ensures OthersOf(Upsert(owners, me), me) == OthersOf(owners, me)
    ensures Entries(Upsert(owners, me), me) == if Entries(owners, me) == 0 then 1 else Entries(owners, me)
  {
    if owners != [] {
      UpsertEffect(owners[1..], me);
      assert Upsert(owners, me)[1..] == if SameObject(owners[0], me) then owners[1..] else Upsert(owners[1..], me);
    }
  }

  /** The first entry for the object becomes `me`, whatever version and UID it had, or
      `me` is added at the end; every other entry stays in its place. */
  lemma {:induction false} UpsertAt(owners: Owners, me: OwnerReference, i: nat)
    requires i <= |owners| && (forall j | 0 <= j < i :: !SameObject(owners[j], me))
    requires i < |owners| ==> SameObject(owners[i], me)
    ensures Upsert(owners, me) == if i == |owners| then owners + [me] else owners[i := me]
    decreases i
  {
    if i > 0 {
      UpsertAt(owners[1..], me, i - 1);
      assert owners == [owners[0]] + owners[1..];
    }
  }

  lemma {:induction false} UpsertWrites(owners: Owners, me: OwnerReference)
    ensures me in Upsert(owners, me)
  {
    if owners != [] && !SameObject(owners[0], me) {
      UpsertWrites(owners[1..], me);
    }
  }

  /** Exactly the entries equal to `me` go. */
  lemma {:induction false} WithoutCounts(owners: Owners, me: OwnerReference, o: OwnerReference)
    ensures multiset(Without(owners, me))[o] == if o == me then 0 else multiset(owners)[o]
  {
    if owners != [] {
      var n := |owners| - 1;
      var rest, last := owners[..n], owners[n];
      WithoutCounts(rest, me, o);
      assert owners == rest + [last];
      assert multiset(owners)[o] == multiset(rest)[o] + if o == last then 1 else 0;
    }
  }

  lemma {:induction false} UpsertAgrees(owners: Owners, me: OwnerReference)
    requires Agreeing(owners, me)
    ensures Agreeing(Upsert(owners, me), me)
    ensures Entries(owners, me) > 0 ==> Upsert(owners, me) == owners
  {
    if owners != [] {
      AgreeingParts([owners[0]], owners[1..], me);
      assert owners == [owners[0]] + owners[1..];
      if SameObject(owners[0], me) {
        assert [owners[0]][0] == me;
      } else {
        UpsertAgrees(owners[1..], me);
        AgreeingParts([owners[0]], Upsert(owners[1..], me), me);
      }
    }
  }

  /** Removing the entry keeps everybody else's, and leaves none for the object
      exactly when its entries agree in version and UID. */
  lemma {:induction false} WithoutEffect(owners: Owners, me: OwnerReference)
    requires Parses(me)
    ensures OthersOf(Without(owners, me), me) == OthersOf(owners, me)
    ensures Entries(Without(owners, me), me) <= Entries(owners, me)
    ensures Entries(Without(owners, me), me) == 0 <==> Agreeing(owners, me)
  {
    if owners != [] {
      var n := |owners| - 1;
      var front, last := owners[..n], [owners[n]];
      WithoutEffect(front, me);
      assert owners == front + last;
      OthersOfAppend(front, last, me);
      OthersOfAppend(Without(front, me), last, me);
      AgreeingParts(front, last, me);
      assert last[1..] == [] && Without(front, me) + [] == Without(front, me);
      assert Agreeing(last, me) <==> (SameObject(last[0], me) ==> last[0] == me);
      assert Without(owners, me) == if last[0] == me then Without(front, me) else Without(front, me) + last;
    }
  }

  lemma {:induction false} WithoutIsClean(owners: Owners, me: OwnerReference)
    ensures me !in Without(owners, me)
    ensures me !in owners ==> Without(owners, me) == owners
  {
    if owners != [] {
      var n := |owners| - 1;
      WithoutIsClean(owners[..n], me);
      assert owners == owners[..n] + [owners[n]];
    }
  }

  // ---- Pausing and unpausing ---------------------------------------------------------

  /** An unpaused reconcile adopts the ClusterDeployment, a paused one orphans it,
      and others may add and remove their own entries in between. */
  datatype Change = Adopt | Orphan | OthersChange(owners: Owners)

  /** What a reconcile does to the owners. Nothing is written if the ClusterDeployment
      is already owned and labelled, or if there is nothing to orphan. */
  function Changed(owners: Owners, labelled: bool, me: OwnerReference, c: Change): Owners {
    match c
    case Adopt => if IsOwnedBy(owners, me) && labelled then owners else Upsert(owners, me)
    case Orphan => if IsOwnedBy(owners, me) then Without(owners, me) else owners
    case OthersChange(os) => os
  }

  /** Others leave the entry of the AgentCluster alone. */
  predicate Allowed(owners: Owners, me: OwnerReference, c: Change) {
    c.OthersChange? ==> Entries(c.owners, me) == Entries(owners, me) && (Agreeing(owners, me) <==> Agreeing(c.owners, me))
  }

  ghost predicate IsHistory(lists: seq<Owners>, labels: seq<bool>, me: OwnerReference, cs: seq<Change>) {
    && |lists| == |cs| + 1 && |labels| == |cs| + 1
    && forall i | 0 <= i < |cs| ::
         && Allowed(lists[i], me, cs[i])
         && lists[i + 1] == Changed(lists[i], labels[i], me, cs[i])
         && (cs[i].Adopt? ==> labels[i + 1]) && (labels[i] && !cs[i].OthersChange? ==> labels[i + 1])
  }

  /** One change keeps agreement and at most one entry, and the entries of others
      are what others made them. */
  lemma ChangeEffect(owners: Owners, labelled: bool, me: OwnerReference, c: Change)
    requires Parses(me) && Allowed(owners, me, c)
    ensures var os := Changed(owners, labelled, me, c);
            && (c.OthersChange? || OthersOf(os, me) == OthersOf(owners, me))
            && Entries(os, me) <= (if Entries(owners, me) == 0 then 1 else Entries(owners, me))
            && (Agreeing(owners, me) ==> Agreeing(os, me))
            && (c.Adopt? ==> IsOwnedBy(os, me))
            && (c.Orphan? ==> (!IsOwnedBy(os, me) <==> Agreeing(owners, me)))
            && (!c.OthersChange? ==> Changed(os, true, me, c) == os)
  {
    hide Agreeing, IsOwnedBy;
    var os := Changed(owners, labelled, me, c);
    EntriesZero(owners, me);
    EntriesZero(os, me);
    if c.Adopt? {
      UpsertEffect(owners, me);
      if Agreeing(owners, me) { UpsertAgrees(owners, me); }
    } else if c.Orphan? {
      WithoutEffect(owners, me);
      WithoutEffect(os, me);
      WithoutIsClean(owners, me);
      WithoutIsClean(os, me);
    }
  }

  /** Over any sequence of pauses and unpauses, the entries of others stay as they
      were and in order while others do not change them. There is never more than
      one entry for the AgentCluster unless there were more to begin with. */
  lemma {:induction false} OthersUntouched(
      lists: seq<Owners>, labels: seq<bool>, me: OwnerReference, cs: seq<Change>, i: nat, j: nat)
    requires Parses(me) && IsHistory(lists, labels, me, cs) && i <= j <= |cs|
    requires forall k | i <= k < j :: !cs[k].OthersChange?
    ensures OthersOf(lists[j], me) == OthersOf(lists[i], me)
    decreases j - i
  {
    if i < j {
      ChangeEffect(lists[i], labels[i], me, cs[i]);
      OthersUntouched(lists, labels, me, cs, i + 1, j);
    }
  }

  lemma {:induction false} EntryCount(
      lists: seq<Owners>, labels: seq<bool>, me: OwnerReference, cs: seq<Change>, j: nat)
    requires Parses(me) && IsHistory(lists, labels, me, cs) && j <= |cs|
    ensures Entries(lists[j], me) <= (if Entries(lists[0], me) == 0 then 1 else Entries(lists[0], me))
    ensures Agreeing(lists[0], me) ==> Agreeing(lists[j], me)
    decreases j
  {
    if j > 0 {
      EntryCount(lists, labels, me, cs, j - 1);
      ChangeEffect(lists[j - 1], labels[j - 1], me, cs[j - 1]);
    }
  }

  /** If the entries agree in version and UID to begin with, every adoption ends
      with the ClusterDeployment owned and every orphaning with it not owned. */
  lemma PauseDecidesOwnership(
      lists: seq<Owners>, labels: seq<bool>, me: OwnerReference, cs: seq<Change>, i: nat)
    requires Parses(me) && IsHistory(lists, labels, me, cs) && i < |cs|
    requires Agreeing(lists[0], me) && !cs[i].OthersChange?
    ensures IsOwnedBy(lists[i + 1], me) <==> cs[i].Adopt?
  {
    EntryCount(lists, labels, me, cs, i);
    ChangeEffect(lists[i], labels[i], me, cs[i]);
  }

  /** An entry with an old UID is neither renewed by an adoption nor removed by an
      orphaning. */
  lemma StaleEntryStays(me: OwnerReference, stale: OwnerReference)
    requires SameObject(stale, me) && stale != me
    ensures Changed([stale], true, me, Adopt) == [stale]
    ensures Changed([stale], true, me, Orphan) == [stale]
  {
    assert IsOwnedBy([stale], me) by { assert SameObject([stale][0], me); }
    WithoutIsClean([stale], me);
  }

  // ---- The merge patch -------------------------------------------------------------------

  /** The patch carries the whole list if it differs from the list as read, and the
      list it is applied to may be another one by then. */
  function Patched(current: Owners, read: Owners, wanted: Owners): Owners {
    if wanted == read then current else wanted
  }

  /** A patch made from an older list keeps the entries of others exactly when it
      carries no list, or others did not change theirs meanwhile. */
  lemma PatchKeepsOthers(current: Owners, read: Owners, labelled: bool, me: OwnerReference, c: Change)
    requires Parses(me) && !c.OthersChange?
    ensures var wanted := Changed(read, labelled, me, c);
            OthersOf(Patched(current, read, wanted), me) == OthersOf(current, me) <==>
            wanted == read || OthersOf(read, me) == OthersOf(current, me)
  {
    ChangeEffect(read, labelled, me, c);
  }
}
