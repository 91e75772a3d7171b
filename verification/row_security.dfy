// The row-level-security script of src/db/rls.ts, run against a catalog of tables, and what the
// resulting policies let each database role see.

module RowSecurity {
  import opened Prelude

  const TENANT_SCOPED_TABLES: seq<string> :=
    ["users", "projects", "audit_log", "refresh_tokens", "invitations", "auth_tokens", "subscriptions", "api_keys"]

  datatype Command = ForSelect | ForInsert | ForUpdate | ForDelete | ForAll

  // A condition of a policy: the one the script writes, or any other test of the setting and the row's
  // tenant.
  datatype Test = TenantMatches | Other(admits: (Option<string>, string) -> bool)

  // A permissive policy: `using` tests the rows a command finds, `check` those it stores.
  datatype Policy = Policy(command: Command, using: Test, check: Test)

  datatype TableSecurity = TableSecurity(enabled: bool, forced: bool, policies: map<string, Policy>)

  type Catalog = map<string, TableSecurity>

  datatype Statement =
    | Enable(table: string)
    | Force(table: string)
    | DropPolicyIfExists(name: string, table: string)
    | CreatePolicy(name: string, table: string, policy: Policy)

  // None: the statement raises an error (no such table, or the policy already exists).
  function Apply(cat: Catalog, s: Statement): Option<Catalog> {
    if s.table !in cat then None
    else
      var t := cat[s.table];
      match s
      case Enable(_) => Some(cat[s.table := t.(enabled := true)])
      case Force(_) => Some(cat[s.table := t.(forced := true)])
      case DropPolicyIfExists(name, _) => Some(cat[s.table := t.(policies := t.policies - {name})])
      case CreatePolicy(name, _, policy) =>
        if name in t.policies then None
        else Some(cat[s.table := t.(policies := t.policies[name := policy])])
  }

  function ApplyAll(cat: Catalog, stmts: seq<Statement>): Option<Catalog>
    decreases stmts
  {
    if stmts == [] then Some(cat)
    else
      var next := Apply(cat, stmts[0]);
      if next.None? then None else ApplyAll(next.value, stmts[1..])
  }

  const SELECT_OWN := Policy(ForSelect, TenantMatches, TenantMatches)
  const MODIFY_OWN := Policy(ForAll, TenantMatches, TenantMatches)

  function ScriptFor(table: string): seq<Statement> {
    [Enable(table), Force(table),
     DropPolicyIfExists("tenant_isolation_select", table), CreatePolicy("tenant_isolation_select", table, SELECT_OWN),
     DropPolicyIfExists("tenant_isolation_mod", table), CreatePolicy("tenant_isolation_mod", table, MODIFY_OWN)]
  }

  function ScriptForAll(tables: seq<string>): seq<Statement> {
    if tables == [] then [] else ScriptForAll(tables[..|tables| - 1]) + ScriptFor(tables[|tables| - 1])
  }

  method RlsPolicyScript() returns (stmts: seq<Statement>)
    ensures stmts == ScriptForAll(TENANT_SCOPED_TABLES)
  {
    stmts := [];
    var i := 0;
    while i < |TENANT_SCOPED_TABLES|
      invariant 0 <= i <= |TENANT_SCOPED_TABLES|
      invariant stmts == ScriptForAll(TENANT_SCOPED_TABLES[..i])
    {
      var table := TENANT_SCOPED_TABLES[i];
      ghost var before := stmts;
      stmts := stmts + [Enable(table)];
      stmts := stmts + [Force(table)];
      stmts := stmts + [DropPolicyIfExists("tenant_isolation_select", table)];
      stmts := stmts + [CreatePolicy("tenant_isolation_select", table, SELECT_OWN)];
      stmts := stmts + [DropPolicyIfExists("tenant_isolation_mod", table)];
      stmts := stmts + [CreatePolicy("tenant_isolation_mod", table, MODIFY_OWN)];
      assert stmts == before + ScriptFor(table);
      assert TENANT_SCOPED_TABLES[..i + 1][..i] == TENANT_SCOPED_TABLES[..i];
      i := i + 1;
    }
    assert TENANT_SCOPED_TABLES[..i] == TENANT_SCOPED_TABLES;
  }

  // The table after the script: its own two policies in place, any other policy kept.
  function Protect(t: TableSecurity): TableSecurity {
    TableSecurity(true, true, t.policies["tenant_isolation_select" := SELECT_OWN]["tenant_isolation_mod" := MODIFY_OWN])
  }

  lemma {:induction false} ApplyAllConcat(cat: Catalog, a: seq<Statement>, b: seq<Statement>)
    ensures var mid := ApplyAll(cat, a);
            ApplyAll(cat, a + b) == if mid.None? then None else ApplyAll(mid.value, b)
    decreases a
  {
    if a == [] {
      assert a + b == b;
    } else {
      assert (a + b)[1..] == a[1..] + b;
      var next := Apply(cat, a[0]);
      if next.Some? {
        ApplyAllConcat(next.value, a[1..], b);
      }
    }
  }

  lemma ApplyCons(cat: Catalog, s: Statement, rest: seq<Statement>)
    requires Apply(cat, s).Some?
    ensures ApplyAll(cat, [s] + rest) == ApplyAll(Apply(cat, s).value, rest)
  {
    assert ([s] + rest)[1..] == rest;
  }

  // DROP IF EXISTS and then CREATE: whether or not the policy was there, now it is.
  lemma ReplacePolicy(cat: Catalog, name: string, table: string, policy: Policy)
    requires table in cat
    ensures ApplyAll(cat, [DropPolicyIfExists(name, table), CreatePolicy(name, table, policy)])
         == Some(cat[table := cat[table].(policies := cat[table].policies[name := policy])])
  {
    var drop, create := DropPolicyIfExists(name, table), CreatePolicy(name, table, policy);
    var t := cat[table];
    var dropped := Apply(cat, drop).value;
    ApplyCons(cat, drop, [create]);
    ApplyCons(dropped, create, []);
    assert (t.policies - {name})[name := policy] == t.policies[name := policy];
    assert Apply(dropped, create).value == cat[table := t.(policies := t.policies[name := policy])];
  }

  lemma TableScriptProtects(cat: Catalog, table: string)
    requires table in cat
    ensures ApplyAll(cat, ScriptFor(table)) == Some(cat[table := Protect(cat[table])])
  {
    var on := [Enable(table), Force(table)];
    var select := [DropPolicyIfExists("tenant_isolation_select", table), CreatePolicy("tenant_isolation_select", table, SELECT_OWN)];
    var mod := [DropPolicyIfExists("tenant_isolation_mod", table), CreatePolicy("tenant_isolation_mod", table, MODIFY_OWN)];
    ApplyCons(cat, on[0], [on[1]]);
    ApplyCons(Apply(cat, on[0]).value, on[1], []);
    var c1 := ApplyAll(cat, on).value;
    ReplacePolicy(c1, "tenant_isolation_select", table, SELECT_OWN);
    var c2 := ApplyAll(c1, select).value;
    assert c2[table := c2[table].(policies := c2[table].policies["tenant_isolation_mod" := MODIFY_OWN])]
        == cat[table := Protect(cat[table])];
    ReplacePolicy(c2, "tenant_isolation_mod", table, MODIFY_OWN);
    ApplyAllConcat(c1, select, mod);
    ApplyAllConcat(cat, on, select + mod);
    assert ScriptFor(table) == on + (select + mod);
  }

  function ProtectAll(cat: Catalog, tables: seq<string>): Catalog {
    map name | name in cat :: if name in tables then Protect(cat[name]) else cat[name]
  }

  // From any catalog that has the tables, also one already migrated, the script succeeds, protects
  // exactly the listed tables and leaves every other table alone.
  lemma {:induction false} ScriptProtects(cat: Catalog, tables: seq<string>)
    requires forall i :: 0 <= i < |tables| ==> tables[i] in cat
    requires forall i, j :: 0 <= i < j < |tables| ==> tables[i] != tables[j]
    ensures ApplyAll(cat, ScriptForAll(tables)) == Some(ProtectAll(cat, tables))
  {
    if tables == [] {
      assert ProtectAll(cat, []) == cat;
    } else {
      var init, last := tables[..|tables| - 1], tables[|tables| - 1];
      ScriptProtects(cat, init);
      ApplyAllConcat(cat, ScriptForAll(init), ScriptFor(last));
      var mid := ApplyAll(cat, ScriptForAll(init)).value;
      assert last !in init;
      TableScriptProtects(mid, last);
      assert tables == init + [last];
      assert mid[last := Protect(mid[last])] == ProtectAll(cat, tables);
    }
  }

  // The migration can be run again on its own result.
  lemma ScriptIsRerunnable(cat: Catalog)
    requires forall i :: 0 <= i < |TENANT_SCOPED_TABLES| ==> TENANT_SCOPED_TABLES[i] in cat
    ensures var done := ProtectAll(cat, TENANT_SCOPED_TABLES);
            ApplyAll(done, ScriptForAll(TENANT_SCOPED_TABLES)) == Some(done)
  {
    var done := ProtectAll(cat, TENANT_SCOPED_TABLES);
    ScriptProtects(done, TENANT_SCOPED_TABLES);
    forall name | name in cat
      ensures Protect(Protect(cat[name])) == Protect(cat[name])
    {
      assert Protect(Protect(cat[name])).policies == Protect(cat[name]).policies;
    }
    assert ProtectAll(done, TENANT_SCOPED_TABLES) == done;
  }

  // ----- What the policies let a role see -----

  // The owner is subject to row security only on tables that force it; a superuser never is.
  datatype Role = AppRole | TableOwner | Superuser

  // NULLIF(current_setting('app.current_tenant_id', true), '')
  function CurrentTenant(setting: Option<string>): Option<string> {
    if setting.None? || setting.value == "" then None else setting
  }

  predicate Admits(test: Test, setting: Option<string>, rowTenant: string) {
    match test
    case TenantMatches => CurrentTenant(setting) == Some(rowTenant)
    case Other(admits) => admits(setting, rowTenant)
  }

  predicate RowSecurityApplies(role: Role, t: TableSecurity) {
    match role
    case AppRole => t.enabled
    case TableOwner => t.enabled && t.forced
    case Superuser => false
  }

  // The ways a command meets a row: reading it, finding it to change or to remove, and storing it, new
  // or changed.
  datatype Access = Read | Change | Remove | Add | Put

  predicate Covers(c: Command, a: Access) {
    c == ForAll || c == match a { case Read => ForSelect case Change => ForUpdate case Remove => ForDelete case Add => ForInsert case Put => ForUpdate }
  }

  predicate Grants(p: Policy, a: Access, setting: Option<string>, rowTenant: string) {
    Covers(p.command, a) && Admits(if a == Add || a == Put then p.check else p.using, setting, rowTenant)
  }

  // Permissive policies are alternatives; no policy at all means no row.
  predicate May(role: Role, t: TableSecurity, a: Access, setting: Option<string>, rowTenant: string) {
    RowSecurityApplies(role, t) ==> exists name :: name in t.policies && Grants(t.policies[name], a, setting, rowTenant)
  }

  // A policy the script did not write lets the row through.
  predicate LetThrough(t: TableSecurity, a: Access, setting: Option<string>, rowTenant: string) {
    exists name :: name in t.policies && name != "tenant_isolation_select" && name != "tenant_isolation_mod"
                   && Grants(t.policies[name], a, setting, rowTenant)
  }

  // After the script a row can be accessed, in whatever way, exactly when it is the current tenant's or
  // some older policy still on the table lets it through.
  lemma ProtectedTableAdmits(t: TableSecurity, role: Role, a: Access, setting: Option<string>, rowTenant: string)
    requires role != Superuser
    ensures May(role, Protect(t), a, setting, rowTenant)
            <==> CurrentTenant(setting) == Some(rowTenant) || LetThrough(t, a, setting, rowTenant)
  {
    var after := Protect(t).policies;
    assert after["tenant_isolation_mod"] == MODIFY_OWN;
    assert forall name :: name in after ==>
      after[name] == (if name == "tenant_isolation_mod" then MODIFY_OWN else if name == "tenant_isolation_select" then SELECT_OWN else t.policies[name]);
    assert Grants(MODIFY_OWN, a, setting, rowTenant) <==> CurrentTenant(setting) == Some(rowTenant);
    assert Grants(SELECT_OWN, a, setting, rowTenant) ==> CurrentTenant(setting) == Some(rowTenant);
    hide Grants;
    if LetThrough(t, a, setting, rowTenant) {
      var name :| name in t.policies && name != "tenant_isolation_select" && name != "tenant_isolation_mod"
                  && Grants(t.policies[name], a, setting, rowTenant);
      assert name in after && Grants(after[name], a, setting, rowTenant);
    }
  }

  // Every access to the table is confined to the current tenant.
  ghost predicate Confined(role: Role, t: TableSecurity) {
    forall a, setting, rowTenant :: May(role, t, a, setting, rowTenant) <==> CurrentTenant(setting) == Some(rowTenant)
  }

  // So the script confines a table exactly when no older policy lets a row of another tenant through;
  // then an unset or empty tenant gets at nothing. A table without older policies is always confined.
  lemma ProtectedTableIsConfinedIff(t: TableSecurity, role: Role)
    requires role != Superuser
    ensures Confined(role, Protect(t))
            <==> forall a, setting, rowTenant :: LetThrough(t, a, setting, rowTenant) ==> CurrentTenant(setting) == Some(rowTenant)
    ensures t.policies.Keys <= {"tenant_isolation_select", "tenant_isolation_mod"} ==> Confined(role, Protect(t))
    ensures Confined(role, Protect(t)) ==>
              forall a, rowTenant :: !May(role, Protect(t), a, None, rowTenant) && !May(role, Protect(t), a, Some(""), rowTenant)
  {
    forall a, setting, rowTenant
      ensures May(role, Protect(t), a, setting, rowTenant)
              <==> CurrentTenant(setting) == Some(rowTenant) || LetThrough(t, a, setting, rowTenant)
    {
      ProtectedTableAdmits(t, role, a, setting, rowTenant);
    }
    hide May, Protect, Grants;
  }

  // An older policy USING (true) survives the script and opens the table.
  lemma OlderPolicyStaysOpen(role: Role, a: Access)
    requires role != Superuser
    ensures var anyone := Other((setting, rowTenant) => true);
            var t := TableSecurity(false, false, map["allow_all" := Policy(ForAll, anyone, anyone)]);
            May(role, Protect(t), a, None, "any") && May(role, Protect(t), a, Some("one"), "another")
  {
    var anyone := Other((setting, rowTenant) => true);
    var t := TableSecurity(false, false, map["allow_all" := Policy(ForAll, anyone, anyone)]);
    assert "allow_all" in t.policies && Grants(t.policies["allow_all"], a, None, "any")
           && Grants(t.policies["allow_all"], a, Some("one"), "another");
    ProtectedTableAdmits(t, role, a, None, "any");
    ProtectedTableAdmits(t, role, a, Some("one"), "another");
  }

  // The owner pool is expected to see every tenant's rows when no tenant is set, and to be confined
  // to one tenant when one is. A role serves both uses exactly when an older policy opens the table
  // just while no tenant is set; with the policies of the script alone none does.
  lemma NoRoleServesBothUses(t: TableSecurity, role: Role, tenant: string, other: string)
    requires tenant != "" && tenant != other
    ensures May(role, Protect(t), Read, None, other) && !May(role, Protect(t), Read, Some(tenant), other)
            <==> role != Superuser && LetThrough(t, Read, None, other) && !LetThrough(t, Read, Some(tenant), other)
    ensures t.policies.Keys <= {"tenant_isolation_select", "tenant_isolation_mod"} ==>
              !(May(role, Protect(t), Read, None, other) && !May(role, Protect(t), Read, Some(tenant), other))
  {
    if role != Superuser {
      ProtectedTableAdmits(t, role, Read, None, other);
      ProtectedTableAdmits(t, role, Read, Some(tenant), other);
    }
  }
}
