/** The permission picker of the roles admin page
    (src/routes/_authenticated/admin/roles.tsx, `PermissionModal`): a set of
    permission ids that starts as the role's own and that checkbox clicks
    toggle one id at a time. */
module RolePermissions {
  import opened Types

  /** The set after one click on `id`: the membership of `id` flips and
      nothing else changes. The original set is a value and is left as it was. */
  function Toggled(selected: set<string>, id: string): (r: set<string>)
    ensures id in r <==> id !in selected
    ensures forall x :: x != id ==> (x in r <==> x in selected)
  {
    if id in selected then selected - {id} else selected + {id}
  }

  /** Two clicks on the same id restore the selection. */
  lemma ToggledTwice(selected: set<string>, id: string)
    ensures Toggled(Toggled(selected, id), id) == selected
  {
  }

  class PermissionSelection {
    var selected: set<string>

    /** `new Set(role.permissions.map((p) => p.id))` */
    constructor (role: Role)
      ensures selected == set p | p in role.permissions :: p.id
    {
      selected := set p | p in role.permissions :: p.id;
    }

    /** `togglePermission`: a copy of the set with `id` flipped replaces it. */
    method TogglePermission(id: string)
      modifies this
      ensures selected == Toggled(old(selected), id)
    {
      var newSet := selected;
      if id in newSet {
        newSet := newSet - {id};
      } else {
        newSet := newSet + {id};
      }
      selected := newSet;
    }

    /** `handleSubmit`: `Array.from(selectedPermissions)`, each selected id
        exactly once. */
    method HandleSubmit() returns (ids: seq<string>)
      ensures NoDuplicates(ids)
      ensures forall x :: x in ids <==> x in selected
    {
      ids := [];
      var rest := selected;
      while rest != {}
        invariant rest <= selected
        invariant NoDuplicates(ids)
        invariant forall x :: x in ids <==> x in selected && x !in rest
        decreases rest
      {
        var x :| x in rest;
        ids := ids + [x];
        rest := rest - {x};
      }
    }
  }
}
