/**
 * Action-group resolution (ActionGroupHolder): a named group lists
 * members, each either a permission string or the name of another group,
 * and a group resolves to the set of permission strings reached by
 * expanding every member that is itself a group.
 *
 * The `actiongroups` settings are seen as a map from each group name
 * (`names()`) to the array `getAsArray(name)`; a name that is not a key
 * lists nothing.  The source keeps no visited set, so resolution ends only
 * on an acyclic group graph; the model asks for a ghost `rank` that
 * witnesses acyclicity (every member group ranks below the group listing
 * it), and the result does not depend on which witness is given.
 */
module ActionGroups {
  import opened Support

  /** Group name to its listed members, in array order. */
  type Groups = map<string, seq<string>>

  /** `actionGroups.getAsArray(entry)`: the listed members, or none. */
  function Members(groups: Groups, entry: string): seq<string> {
    if entry in groups then groups[entry] else []
  }

  /** `rank` witnesses that no group reaches itself through its members. */
  ghost predicate Ranked(groups: Groups, rank: map<string, nat>) {
    && groups.Keys <= rank.Keys
    && forall g, i :: g in groups && 0 <= i < |groups[g]| && groups[g][i] in groups ==> rank[groups[g][i]] < rank[g]
  }

  /** The termination measure of a group: one above its rank; 0 for a permission string. */
  ghost function Height(groups: Groups, rank: map<string, nat>, e: string): nat {
    if e in groups && e in rank then rank[e] + 1 else 0
  }

  /**
   * `resolve(actionGroups, entry)`: the union, over the listed members, of
   * the member itself when it is not a group name and of its resolution
   * when it is.
   */
  function Resolve(groups: Groups, entry: string, ghost rank: map<string, nat>): (r: set<string>)
    requires Ranked(groups, rank)
    ensures forall x :: x in r ==> x !in groups
    ensures forall i :: 0 <= i < |Members(groups, entry)| && Members(groups, entry)[i] !in groups ==> Members(groups, entry)[i] in r
    ensures entry !in groups ==> r == {}
    decreases Height(groups, rank, entry), 1
  {
    ResolveAll(groups, Members(groups, entry), rank, Height(groups, rank, entry))
  }

  /**
   * The body of the `for` loop after the members `en` are processed: a
   * permission string in `en` is in the set, and so is everything reached
   * from a group in `en`, and nothing else.
   */
  function ResolveAll(groups: Groups, en: seq<string>, ghost rank: map<string, nat>, ghost bound: nat): (r: set<string>)
    requires Ranked(groups, rank)
    requires forall i :: 0 <= i < |en| ==> Height(groups, rank, en[i]) < bound
    ensures forall x :: x in r ==> x !in groups
    ensures forall i :: 0 <= i < |en| && en[i] !in groups ==> en[i] in r
    ensures forall x :: x in r <==> exists i :: 0 <= i < |en| && Contributes(groups, rank, en[i], x)
    decreases bound, 0, |en|
  {
    if en == [] then {}
    else
      var prefix, m := en[..|en| - 1], en[|en| - 1];
      var before := ResolveAll(groups, prefix, rank, bound);
      assert forall i :: 0 <= i < |prefix| ==> prefix[i] == en[i];
      var r := if m in groups then before + Resolve(groups, m, rank) else before + {m};
      assert forall x :: x in r ==> x !in groups;
      assert forall x :: x in r ==> exists i :: 0 <= i < |en| && Contributes(groups, rank, en[i], x) by {
        forall x | x in r
          ensures exists i :: 0 <= i < |en| && Contributes(groups, rank, en[i], x)
        {
          if x in before {
            var i :| 0 <= i < |prefix| && Contributes(groups, rank, prefix[i], x);
            assert en[i] == prefix[i];
          } else {
            assert Contributes(groups, rank, en[|en| - 1], x);
          }
        }
      }
      assert forall i :: 0 <= i < |en| ==> forall x :: Contributes(groups, rank, en[i], x) ==> x in r by {
        forall i, x | 0 <= i < |en| && Contributes(groups, rank, en[i], x)
          ensures x in r
        {
          if i < |prefix| {
            assert prefix[i] == en[i];
          }
        }
      }
      r
  }

  /** Member `m` brings `x` into the resolution: as itself, or through its own resolution. */
  ghost predicate Contributes(groups: Groups, rank: map<string, nat>, m: string, x: string)
    requires Ranked(groups, rank)
    decreases Height(groups, rank, m), 2
  {
    if m in groups then x in Resolve(groups, m, rank) else x == m
  }

  /**
   * `getGroupMembers`: the resolution of the group in the `actiongroups`
   * configuration, or the empty set when there is no such configuration.
   */
  function GetGroupMembers(config: Option<Groups>, groupname: string, ghost rank: map<string, nat>): (r: set<string>)
    requires config.Some? ==> Ranked(config.value, rank)
    ensures config.None? ==> r == {}
    ensures config.Some? ==> r == Resolve(config.value, groupname, rank)
    ensures config.Some? ==> forall x :: x in r ==> x !in config.value
    ensures config.Some? && groupname !in config.value ==> r == {}
  {
    if config.None? then {} else Resolve(config.value, groupname, rank)
  }

  /** The resolution of a group is the union over its listed members (both directions). */
  lemma ResolveIsUnion(groups: Groups, entry: string, rank: map<string, nat>, x: string)
    requires Ranked(groups, rank)
    ensures x in Resolve(groups, entry, rank) <==>
      exists i :: 0 <= i < |Members(groups, entry)| &&
        var m := Members(groups, entry)[i];
        (m !in groups && x == m) || (m in groups && x in Resolve(groups, m, rank))
  {
    var en := Members(groups, entry);
    assert Resolve(groups, entry, rank) == ResolveAll(groups, en, rank, Height(groups, rank, entry));
    if x in Resolve(groups, entry, rank) {
      var i :| 0 <= i < |en| && Contributes(groups, rank, en[i], x);
    }
    if exists i :: 0 <= i < |en| && ((en[i] !in groups && x == en[i]) || (en[i] in groups && x in Resolve(groups, en[i], rank))) {
      var i :| 0 <= i < |en| && ((en[i] !in groups && x == en[i]) || (en[i] in groups && x in Resolve(groups, en[i], rank)));
      assert Contributes(groups, rank, en[i], x);
    }
  }

  /** A listed sub-group is expanded in full: its whole resolution is part of the group's. */
  lemma SubGroupIncluded(groups: Groups, entry: string, rank: map<string, nat>, i: nat)
    requires Ranked(groups, rank)
    requires i < |Members(groups, entry)| && Members(groups, entry)[i] in groups
    ensures Resolve(groups, Members(groups, entry)[i], rank) <= Resolve(groups, entry, rank)
  {
    var m := Members(groups, entry)[i];
    forall x | x in Resolve(groups, m, rank)
      ensures x in Resolve(groups, entry, rank)
    {
      ResolveIsUnion(groups, entry, rank, x);
    }
  }

  /** A group that lists nothing resolves to the empty set. */
  lemma EmptyGroupResolvesToNothing(groups: Groups, entry: string, rank: map<string, nat>)
    requires Ranked(groups, rank) && entry in groups && groups[entry] == []
    ensures Resolve(groups, entry, rank) == {}
  {
  }

  /** The result does not depend on which acyclicity witness is used. */
  lemma {:induction false} ResolveIndependentOfRank(groups: Groups, entry: string, rank1: map<string, nat>, rank2: map<string, nat>)
    requires Ranked(groups, rank1) && Ranked(groups, rank2)
    ensures Resolve(groups, entry, rank1) == Resolve(groups, entry, rank2)
    decreases Height(groups, rank1, entry)
  {
    var en := Members(groups, entry);
    forall i | 0 <= i < |en| && en[i] in groups
      ensures Resolve(groups, en[i], rank1) == Resolve(groups, en[i], rank2)
    {
      ResolveIndependentOfRank(groups, en[i], rank1, rank2);
    }
    forall x
      ensures x in Resolve(groups, entry, rank1) <==> x in Resolve(groups, entry, rank2)
    {
      ResolveIsUnion(groups, entry, rank1, x);
      ResolveIsUnion(groups, entry, rank2, x);
    }
  }
}
