/** The grouping on the permissions admin page
    (src/routes/_authenticated/admin/permissions.tsx): a `reduce` that
    builds a dictionary from resource name to the permissions on that
    resource, creating a group the first time its key is seen and
    appending to it afterwards. */
module PermissionGroups {
  import opened Types

  /** Reference definition: the permissions of `ps` on `resource`, in input order. */
  function OfResource(ps: seq<Permission>, resource: string): seq<Permission>
  {
    if ps == [] then []
    else
      var last := ps[|ps| - 1];
      OfResource(ps[..|ps| - 1], resource) + (if last.resource == resource then [last] else [])
  }

  /** A group holds exactly the permissions on its resource. */
  lemma {:induction false} OfResourceMembers(ps: seq<Permission>, resource: string)
    ensures forall p :: p in OfResource(ps, resource) <==> p in ps && p.resource == resource
  {
    if ps != [] {
      var init := ps[..|ps| - 1];
      OfResourceMembers(init, resource);
      assert ps == init + [ps[|ps| - 1]];
    }
  }

  /** No permission on the resource, no group. */
  lemma {:induction false} OfResourceEmpty(ps: seq<Permission>, resource: string)
    requires forall p :: p in ps ==> p.resource != resource
    ensures OfResource(ps, resource) == []
  {
    if ps != [] {
      var init := ps[..|ps| - 1];
      assert forall p :: p in init ==> p in ps;
      OfResourceEmpty(init, resource);
      assert ps[|ps| - 1] in ps;
    }
  }

  ghost function Resources(ps: seq<Permission>): set<string>
  {
    set p | p in ps :: p.resource
  }

  /** The number of permissions held in all groups together. */
  ghost function TotalSize(groups: map<string, seq<Permission>>): nat
    decreases groups.Keys
  {
    if groups == map[] then 0
    else
      var k :| k in groups;
      |groups[k]| + TotalSize(groups - {k})
  }

  lemma {:induction false} TotalSizeRemove(groups: map<string, seq<Permission>>, k: string)
    requires k in groups
    ensures TotalSize(groups) == |groups[k]| + TotalSize(groups - {k})
    decreases groups.Keys
  {
    var k' :| k' in groups && TotalSize(groups) == |groups[k']| + TotalSize(groups - {k'});
    if k' != k {
      TotalSizeRemove(groups - {k'}, k);
      TotalSizeRemove(groups - {k}, k');
      assert groups - {k'} - {k} == groups - {k} - {k'};
    }
  }

  /** Putting one more permission into a group, new or existing, adds one. */
  lemma TotalSizePush(groups: map<string, seq<Permission>>, k: string, p: Permission)
    requires k in groups
    ensures TotalSize(groups[k := groups[k] + [p]]) == TotalSize(groups) + 1
  {
    var g := groups[k := groups[k] + [p]];
    TotalSizeRemove(g, k);
    TotalSizeRemove(groups, k);
    assert g - {k} == groups - {k};
  }

  lemma TotalSizeNewGroup(groups: map<string, seq<Permission>>, k: string)
    requires k !in groups
    ensures TotalSize(groups[k := []]) == TotalSize(groups)
  {
    TotalSizeRemove(groups[k := []], k);
    assert groups[k := []] - {k} == groups;
  }

  lemma OfResourceSnoc(prefix: seq<Permission>, p: Permission, k: string)
    ensures OfResource(prefix + [p], k) == OfResource(prefix, k) + (if p.resource == k then [p] else [])
  {
  }

  lemma ResourcesSnoc(prefix: seq<Permission>, p: Permission)
    ensures Resources(prefix + [p]) == Resources(prefix) + {p.resource}
  {
  }

  /** One step of the `reduce`, stated on the grouping of a prefix: a
      missing group is created empty, then the permission is pushed onto its
      resource's group. The groups stay those of the longer prefix. */
  lemma GroupStep(groups: map<string, seq<Permission>>, prefix: seq<Permission>, p: Permission,
                  created: map<string, seq<Permission>>, next: map<string, seq<Permission>>)
    requires groups.Keys == Resources(prefix)
    requires forall k :: k in groups ==> groups[k] == OfResource(prefix, k)
    requires created == if p.resource in groups then groups else groups[p.resource := []]
    requires next == created[p.resource := created[p.resource] + [p]]
    ensures next.Keys == Resources(prefix + [p])
    ensures forall k :: k in next ==> next[k] == OfResource(prefix + [p], k)
  {
    forall k | k in next
      ensures next[k] == OfResource(prefix + [p], k)
    {
      GroupStepAt(groups, prefix, p, created, next, k);
    }
    ResourcesSnoc(prefix, p);
  }

  lemma GroupStepAt(groups: map<string, seq<Permission>>, prefix: seq<Permission>, p: Permission,
                    created: map<string, seq<Permission>>, next: map<string, seq<Permission>>, k: string)
    requires groups.Keys == Resources(prefix)
    requires forall k :: k in groups ==> groups[k] == OfResource(prefix, k)
    requires created == if p.resource in groups then groups else groups[p.resource := []]
    requires next == created[p.resource := created[p.resource] + [p]]
    requires k in next
    ensures next[k] == OfResource(prefix + [p], k)
  {
    OfResourceSnoc(prefix, p, k);
    if k == p.resource && k !in groups {
      assert forall q :: q in prefix ==> q.resource in Resources(prefix);
      OfResourceEmpty(prefix, k);
    }
  }

  /** The same step adds exactly one permission to the groups together: an
      existing group is never reset. */
  lemma GroupStepSize(groups: map<string, seq<Permission>>, p: Permission,
                      created: map<string, seq<Permission>>, next: map<string, seq<Permission>>)
    requires created == if p.resource in groups then groups else groups[p.resource := []]
    requires next == created[p.resource := created[p.resource] + [p]]
    ensures TotalSize(next) == TotalSize(groups) + 1
  {
    if p.resource !in groups {
      TotalSizeNewGroup(groups, p.resource);
    }
    TotalSizePush(created, p.resource, p);
  }

  lemma PrefixStep(ps: seq<Permission>, i: nat)
    requires i < |ps|
    ensures ps[..i + 1] == ps[..i] + [ps[i]]
  {
  }

  /** The names `Object.prototype` gives every plain object. The accumulator
      `{}` inherits them, and each one reads as a truthy function or object
      that has no `push`. */
  const InheritedKeys: set<string> := {
    "constructor", "__proto__", "__defineGetter__", "__defineSetter__",
    "__lookupGetter__", "__lookupSetter__", "hasOwnProperty", "isPrototypeOf",
    "propertyIsEnumerable", "toString", "toLocaleString", "valueOf"}

  /** No permission of `ps` is on an inherited key. */
  ghost predicate InheritedFree(ps: seq<Permission>)
  {
    forall j :: 0 <= j < |ps| ==> ps[j].resource !in InheritedKeys
  }

  lemma InheritedFreeSnoc(ps: seq<Permission>, p: Permission)
    requires InheritedFree(ps) && p.resource !in InheritedKeys
    ensures InheritedFree(ps + [p])
  {
    assert forall j :: 0 <= j < |ps| ==> (ps + [p])[j] == ps[j];
  }

  /** The outcome of the `reduce`: the groups, or the `TypeError` thrown at
      the permission with index `at`, whose resource names an inherited
      member: the group is not created, and `push` is not a function. */
  datatype Grouping = Grouped(groups: map<string, seq<Permission>>) | Throws(at: nat)

  /** The `reduce`: on a resource named after an inherited member the step
      throws, at the first such permission. Otherwise every permission lands
      in the group of its own resource, the keys are exactly the resources
      that occur, no group is empty, each group keeps input order, and the
      group sizes add up to the input length. An absent list yields no
      groups. */
  method GroupByResource(permissions: Option<seq<Permission>>) returns (r: Grouping)
    ensures permissions.None? ==> r == Grouped(map[])
    ensures permissions.Some? ==>
      (r.Throws? <==> exists i :: 0 <= i < |permissions.value| && permissions.value[i].resource in InheritedKeys)
    ensures permissions.Some? && r.Throws? ==>
      && r.at < |permissions.value|
      && permissions.value[r.at].resource in InheritedKeys
      && forall i :: 0 <= i < r.at ==> permissions.value[i].resource !in InheritedKeys
    ensures permissions.Some? && r.Grouped? ==> r.groups.Keys == Resources(permissions.value)
    ensures permissions.Some? && r.Grouped? ==> forall k :: k in r.groups ==>
      r.groups[k] == OfResource(permissions.value, k) && r.groups[k] != []
    ensures permissions.Some? && r.Grouped? ==> forall p :: p in permissions.value ==>
      p.resource in r.groups && p in r.groups[p.resource]
    ensures permissions.Some? && r.Grouped? ==> TotalSize(r.groups) == |permissions.value|
  {
    var groups := map[];
    if permissions.None? {
      return Grouped(groups);
    }
    var ps := permissions.value;
    for i := 0 to |ps|
      invariant InheritedFree(ps[..i])
      invariant groups.Keys == Resources(ps[..i])
      invariant forall k :: k in groups ==> groups[k] == OfResource(ps[..i], k)
      invariant TotalSize(groups) == i
    {
      var p := ps[i];
      if p.resource in InheritedKeys {
        return Throws(i);
      }
      PrefixStep(ps, i);
      InheritedFreeSnoc(ps[..i], p);
      ghost var before := groups;
      if p.resource !in groups {
        groups := groups[p.resource := []];
      }
      ghost var created := groups;
      groups := groups[p.resource := groups[p.resource] + [p]];
      GroupStep(before, ps[..i], p, created, groups);
      GroupStepSize(before, p, created, groups);
    }
    assert ps[..|ps|] == ps;
    GroupingComplete(ps, groups);
    return Grouped(groups);
  }

  /** The grouping of the whole list has no empty group and holds every
      permission in its resource's group. */
  lemma GroupingComplete(ps: seq<Permission>, groups: map<string, seq<Permission>>)
    requires groups.Keys == Resources(ps)
    requires forall k :: k in groups ==> groups[k] == OfResource(ps, k)
    ensures forall k :: k in groups ==> groups[k] != []
    ensures forall p :: p in ps ==> p.resource in groups && p in groups[p.resource]
  {
    forall k | k in groups ensures groups[k] != [] {
      var q :| q in ps && q.resource == k;
      OfResourceMembers(ps, k);
    }
    forall q | q in ps ensures q.resource in groups && q in groups[q.resource] {
      assert q.resource in Resources(ps);
      OfResourceMembers(ps, q.resource);
    }
  }

  /** A permission on the resource `constructor` makes the `reduce` throw at
      once, however ordinary the rest of the list is. */
  method ConstructorResourceThrows(p: Permission, rest: seq<Permission>) returns (r: Grouping)
    requires p.resource == "constructor"
    ensures r == Throws(0)
  {
    assert ([p] + rest)[0] == p;
    assert "constructor" in InheritedKeys;
    r := GroupByResource(Some([p] + rest));
  }
}
