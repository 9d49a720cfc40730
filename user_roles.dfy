/** The role selection of the "assign roles" dialog on the users admin page
    (src/routes/_authenticated/admin/users.tsx): a list of role ids that a
    checkbox click toggles. */
module UserRoles {
  import opened Types

  /** `prev.filter((id) => id !== roleId)` */
  function RemoveAll(s: seq<string>, x: string): (r: seq<string>)
    ensures x !in r
    ensures forall y :: y != x ==> (y in r <==> y in s)
    ensures x !in s ==> r == s
    ensures NoDuplicates(s) ==> NoDuplicates(r)
  {
    if s == [] then []
    else if s[0] == x then RemoveAll(s[1..], x)
    else
      var rest := RemoveAll(s[1..], x);
      assert NoDuplicates(s) ==> NoDuplicates([s[0]] + rest) by {
        if NoDuplicates(s) {
          assert NoDuplicates(s[1..]);
          assert s[0] !in rest;
          forall a, b | 0 <= a < b < |[s[0]] + rest|
            ensures ([s[0]] + rest)[a] != ([s[0]] + rest)[b]
          {
            assert ([s[0]] + rest)[b] == rest[b - 1];
            if a > 0 {
              assert ([s[0]] + rest)[a] == rest[a - 1];
            }
          }
        }
      }
      [s[0]] + rest
  }

  /** `toggleRole`'s updater: a present id is filtered out (every
      occurrence), an absent one is appended. Every other id keeps its place
      relative to the others. */
  function ToggleRole(prev: seq<string>, roleId: string): (r: seq<string>)
    ensures roleId in r <==> roleId !in prev
    ensures roleId !in prev ==> r == prev + [roleId]
    ensures RemoveAll(r, roleId) == RemoveAll(prev, roleId)
    ensures NoDuplicates(prev) ==> NoDuplicates(r)
  {
    if roleId in prev then RemoveAll(prev, roleId)
    else
      RemoveAllAppend(prev, [roleId], roleId);
      prev + [roleId]
  }

  lemma {:induction false} RemoveAllAppend(a: seq<string>, b: seq<string>, x: string)
    ensures RemoveAll(a + b, x) == RemoveAll(a, x) + RemoveAll(b, x)
  {
    if a == [] {
      assert a + b == b;
    } else {
      assert (a + b)[0] == a[0];
      assert (a + b)[1..] == a[1..] + b;
      RemoveAllAppend(a[1..], b, x);
    }
  }

  /** Toggling an absent id twice gives back the very same list. */
  lemma ToggleAbsentTwice(prev: seq<string>, roleId: string)
    requires roleId !in prev
    ensures ToggleRole(ToggleRole(prev, roleId), roleId) == prev
  {
  }

  /** Toggling a present id twice gives back the same ids, with that id
      moved to the end. */
  lemma TogglePresentTwice(prev: seq<string>, roleId: string)
    requires roleId in prev
    ensures ToggleRole(ToggleRole(prev, roleId), roleId) == RemoveAll(prev, roleId) + [roleId]
    ensures forall y :: y in ToggleRole(ToggleRole(prev, roleId), roleId) <==> y in prev
  {
  }

  /** `handleAssignRoles`: the selection starts as the user's role ids, in
      role order. */
  function InitialSelection(roles: seq<Role>): (ids: seq<string>)
    ensures |ids| == |roles|
    ensures forall i :: 0 <= i < |roles| ==> ids[i] == roles[i].id
  {
    seq(|roles|, i requires 0 <= i < |roles| => roles[i].id)
  }
}
