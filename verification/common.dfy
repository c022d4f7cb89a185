/** The lock identity of internal/common/common.go: a base instance name, defaulted when empty,
    with the role of the process appended. */
module Common {
  import opened Text

  /** The roles a process takes the lock under. */
  const RoleUpdater: string := "updater"
  const RoleRollback: string := "rollback"

  /** The base identity used when none is configured. */
  const DefaultIdentity: string := "cksr-instance"

  /** The configured base, or the default when it is empty. */
  function BaseOrDefault(base: string): (r: string)
    ensures r != ""
    ensures base != "" ==> r == base
  {
    if base == "" then DefaultIdentity else base
  }

  /** BuildIdentity: the defaulted base, followed by "-" and the role unless the role is empty. */
  function BuildIdentity(base: string, role: string): (r: string)
    ensures r != "" && HasPrefix(r, BaseOrDefault(base))
    ensures role == "" <==> r == BaseOrDefault(base)
    ensures role != "" ==> r[|BaseOrDefault(base)|] == '-' && r[|BaseOrDefault(base)| + 1..] == role
  {
    var b := BaseOrDefault(base);
    if role == "" then b
    else
      assert (b + "-" + role)[..|b|] == b;
      assert (b + "-" + role)[|b| + 1..] == role;
      b + "-" + role
  }

  /** For one base, the identity determines the role: processes in different roles never share
      an identity. */
  lemma IdentityDeterminesRole(base: string, role1: string, role2: string)
    requires BuildIdentity(base, role1) == BuildIdentity(base, role2)
    ensures role1 == role2
  {
    var b := BaseOrDefault(base);
    if role1 != "" && role2 != "" {
      assert role1 == BuildIdentity(base, role1)[|b| + 1..];
    }
  }

  /** The updater and the rollback never contend for the lock under the same identity. */
  lemma UpdaterAndRollbackDiffer(base: string)
    ensures BuildIdentity(base, RoleUpdater) != BuildIdentity(base, RoleRollback)
  {
    if BuildIdentity(base, RoleUpdater) == BuildIdentity(base, RoleRollback) {
      IdentityDeterminesRole(base, RoleUpdater, RoleRollback);
    }
  }
}
