/** The records the console receives from the backend, and the Option type
    that stands for TypeScript's `T | null` and `T | undefined`. Timestamps
    (`created_at`, `updated_at`) carry no behaviour here and are dropped. */
module Types {

  datatype Option<+T> = None | Some(value: T)

  /** A permission: `name` is the capability key the evaluator checks;
      `resource` is the key the permissions page groups by. */
  datatype Permission = Permission(
    id: string,
    name: string,
    resource: string,
    action: string,
    description: Option<string>)

  datatype Role = Role(
    id: string,
    name: string,
    description: Option<string>,
    permissions: seq<Permission>)

  datatype User = User(
    id: string,
    username: string,
    email: string,
    isActive: bool,
    isSuperuser: bool,
    roles: seq<Role>)

  /** JavaScript truthiness of a `string | null`: null and "" are falsy. */
  predicate Truthy(s: Option<string>)
  {
    s.Some? && s.value != ""
  }

  predicate NoDuplicates<T(==)>(s: seq<T>)
  {
    forall a, b :: 0 <= a < b < |s| ==> s[a] != s[b]
  }
}
