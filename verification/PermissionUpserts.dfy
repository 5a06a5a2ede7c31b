/** Permission migrations: upserts of codes and grants that must be right on a database whose seed
    already knew them and on one whose seed did not.

    Ids come from a sequence that an upsert advances even when the code exists. */
module PermissionUpserts {

  type Code = string

  type Role = string

  /** `ids` are the permission rows; grants refer to them by id. */
  datatype Database = Database(roles: set<Role>, ids: map<Code, nat>, nextId: nat, grants: set<(Role, nat)>)

  /** New codes, and which roles are granted which of them. */
  datatype Migration = Migration(codes: seq<Code>, grants: seq<(Role, Code)>)

  // ---- Steps -------------------------------------------------------------------------------------

  function Upsert(d: Database, code: Code): Database {
    d.(ids := if code in d.ids then d.ids else d.ids[code := d.nextId], nextId := d.nextId + 1)
  }

  function UpsertAll(d: Database, codes: seq<Code>): Database {
    if codes == [] then d else Upsert(UpsertAll(d, codes[..|codes| - 1]), codes[|codes| - 1])
  }

  function Grant(d: Database, g: (Role, Code)): Database {
    if g.0 in d.roles && g.1 in d.ids then d.(grants := d.grants + {(g.0, d.ids[g.1])}) else d
  }

  function GrantAll(d: Database, grants: seq<(Role, Code)>): Database {
    if grants == [] then d else Grant(GrantAll(d, grants[..|grants| - 1]), grants[|grants| - 1])
  }

  function Migrate(d: Database, m: Migration): Database {
    GrantAll(UpsertAll(d, m.codes), m.grants)
  }

  function MigrateAll(d: Database, migrations: seq<Migration>): Database
    decreases |migrations|
  {
    if migrations == [] then d else MigrateAll(Migrate(d, migrations[0]), migrations[1..])
  }

  // ---- What a database means -----------------------------------------------------------------------

  predicate Valid(d: Database) {
    && (forall c :: c in d.ids ==> d.ids[c] < d.nextId)
    && (forall b, c :: b in d.ids && c in d.ids && d.ids[b] == d.ids[c] ==> b == c)
    && (forall g :: g in d.grants ==> g.0 in d.roles && exists c :: c in d.ids && d.ids[c] == g.1)
  }

  predicate Allowed(d: Database, role: Role, code: Code) {
    code in d.ids && (role, d.ids[code]) in d.grants
  }

  /** Same roles, same codes, same grants by name, whatever the ids. */
  ghost predicate SameRights(a: Database, b: Database) {
    a.roles == b.roles && a.ids.Keys == b.ids.Keys
      && forall role, code :: Allowed(a, role, code) <==> Allowed(b, role, code)
  }

  predicate WellFormed(m: Migration) {
    forall i :: 0 <= i < |m.grants| ==> m.grants[i].1 in m.codes
  }

  predicate Keeps(d: Database, after: Database) {
    d.roles == after.roles && forall c :: c in d.ids ==> c in after.ids && after.ids[c] == d.ids[c]
  }

  lemma {:induction false} UpsertAllEffect(d: Database, codes: seq<Code>)
    requires Valid(d)
    ensures var after := UpsertAll(d, codes);
            && Valid(after) && Keeps(d, after) && after.grants == d.grants && d.nextId <= after.nextId
            && (forall c :: c in after.ids <==> c in d.ids || c in codes)
            && (forall c :: c in after.ids && c !in d.ids ==> after.ids[c] >= d.nextId)
  {
    if codes != [] {
      var n := |codes| - 1;
      UpsertAllEffect(d, codes[..n]);
      LastOrBefore(codes);
      var before, after := UpsertAll(d, codes[..n]), UpsertAll(d, codes);
      forall g | g in after.grants ensures exists c :: c in after.ids && after.ids[c] == g.1 {
        var c :| c in before.ids && before.ids[c] == g.1;
        assert after.ids[c] == g.1;
      }
    }
  }

  lemma {:induction false} LastOrBefore<T>(s: seq<T>)
    requires s != []
    ensures forall x :: x in s <==> x in s[..|s| - 1] || x == s[|s| - 1]
  {
    assert s == s[..|s| - 1] + [s[|s| - 1]];
  }

  lemma {:induction false} GrantEffect(d: Database, g: (Role, Code))
    requires Valid(d) && g.1 in d.ids
    ensures var after := Grant(d, g);
            && Valid(after) && after.ids == d.ids && after.roles == d.roles && after.nextId == d.nextId
            && (forall role, code :: Allowed(after, role, code)
                 <==> Allowed(d, role, code) || (role in d.roles && (role, code) == g))
  {
    var after := Grant(d, g);
    forall role, code
      ensures Allowed(after, role, code) <==> Allowed(d, role, code) || (role in d.roles && (role, code) == g) {
      if code in d.ids && d.ids[code] == d.ids[g.1] { assert code == g.1; }
    }
  }

  lemma {:induction false} GrantAllEffect(d: Database, grants: seq<(Role, Code)>)
    requires Valid(d) && forall i :: 0 <= i < |grants| ==> grants[i].1 in d.ids
    ensures var after := GrantAll(d, grants);
            && Valid(after) && after.ids == d.ids && after.roles == d.roles && after.nextId == d.nextId
            && (forall role, code :: Allowed(after, role, code) <==>
                  Allowed(d, role, code) || (role in d.roles && (role, code) in grants))
  {
    if grants != [] {
      var n := |grants| - 1;
      GrantAllEffect(d, grants[..n]);
      GrantEffect(GrantAll(d, grants[..n]), grants[n]);
      LastOrBefore(grants);
    }
  }

  /** One migration adds its codes and its grants to roles that exist, takes nothing away, and leaves
      every existing row's id as it was. */
  lemma {:induction false} MigrateEffect(d: Database, m: Migration)
    requires Valid(d) && WellFormed(m)
    ensures var after := Migrate(d, m);
            && Valid(after) && Keeps(d, after)
            && (forall c :: c in after.ids <==> c in d.ids || c in m.codes)
            && (forall role, code :: Allowed(after, role, code) <==>
                  Allowed(d, role, code) || (role in d.roles && (role, code) in m.grants))
  {
    UpsertAllEffect(d, m.codes);
    var mid := UpsertAll(d, m.codes);
    GrantAllEffect(mid, m.grants);
    forall role, code ensures Allowed(mid, role, code) <==> Allowed(d, role, code) {
      NewCodeUngranted(d, mid, role, code);
    }
  }

  lemma {:induction false} NewCodeUngranted(d: Database, mid: Database, role: Role, code: Code)
    requires Valid(d) && Keeps(d, mid) && mid.grants == d.grants
    requires forall c :: c in mid.ids && c !in d.ids ==> mid.ids[c] >= d.nextId
    ensures Allowed(mid, role, code) <==> Allowed(d, role, code)
  {
    forall g | g in d.grants ensures g.1 < d.nextId {
      var c :| c in d.ids && d.ids[c] == g.1;
    }
  }

  /** Running a migration again changes no row, no id and no grant. */
  lemma {:induction false} MigrateTwice(d: Database, m: Migration)
    requires Valid(d) && WellFormed(m)
    ensures var once := Migrate(d, m);
            SameRights(Migrate(once, m), once) && Migrate(once, m).ids == once.ids
  {
    MigrateEffect(d, m);
    var once := Migrate(d, m);
    MigrateEffect(once, m);
    var twice := Migrate(once, m);
    assert twice.ids.Keys == once.ids.Keys;
    assert twice.ids == once.ids;
  }

  predicate AllWellFormed(migrations: seq<Migration>) {
    forall k :: 0 <= k < |migrations| ==> WellFormed(migrations[k])
  }

  lemma {:induction false} MigrateAllEffect(d: Database, migrations: seq<Migration>)
    requires Valid(d) && AllWellFormed(migrations)
    ensures var after := MigrateAll(d, migrations);
            && Valid(after) && Keeps(d, after)
            && (forall c :: c in after.ids
                 <==> c in d.ids || exists k :: 0 <= k < |migrations| && c in migrations[k].codes)
            && (forall role, code :: Allowed(after, role, code) <==>
                  Allowed(d, role, code)
                  || (role in d.roles && exists k :: 0 <= k < |migrations| && (role, code) in migrations[k].grants))
    decreases |migrations|
  {
    if migrations != [] {
      var rest := migrations[1..];
      MigrateEffect(d, migrations[0]);
      assert forall k :: 0 <= k < |rest| ==> rest[k] == migrations[k + 1];
      MigrateAllEffect(Migrate(d, migrations[0]), rest);
      var after := MigrateAll(d, migrations);
      forall c ensures c in after.ids <==> c in d.ids || exists k :: 0 <= k < |migrations| && c in migrations[k].codes {
        if k :| 0 <= k < |migrations| && c in migrations[k].codes { assert k > 0 ==> c in rest[k - 1].codes; }
        if k :| 0 <= k < |rest| && c in rest[k].codes { assert c in migrations[k + 1].codes; }
      }
      forall role, code
        ensures Allowed(after, role, code) <==>
                Allowed(d, role, code)
                || (role in d.roles && exists k :: 0 <= k < |migrations| && (role, code) in migrations[k].grants)
      {
        if k :| 0 <= k < |migrations| && (role, code) in migrations[k].grants {
          assert k > 0 ==> (role, code) in rest[k - 1].grants;
        }
        if k :| 0 <= k < |rest| && (role, code) in rest[k].grants { assert (role, code) in migrations[k + 1].grants; }
      }
    }
  }

  predicate AddedBy(migrations: seq<Migration>, code: Code) {
    exists k :: 0 <= k < |migrations| && code in migrations[k].codes
  }

  predicate GrantedBy(migrations: seq<Migration>, role: Role, code: Code) {
    exists k :: 0 <= k < |migrations| && (role, code) in migrations[k].grants
  }

  /** Two seeds agree on all that the migrations do not settle themselves. */
  ghost predicate AgreeOutside(newer: Database, older: Database, migrations: seq<Migration>) {
    && older.roles == newer.roles
    && (forall c :: !AddedBy(migrations, c) ==> (c in older.ids <==> c in newer.ids))
    && (forall role, code :: !GrantedBy(migrations, role, code) ==>
         (Allowed(older, role, code) <==> Allowed(newer, role, code)))
  }

  /** A freshly seeded database and an old one reach the same rights if and only if their seeds agree
      outside what the migrations add; neither sees an existing id change. */
  lemma {:induction false} FreshAndOldAgreeIff(newer: Database, older: Database, migrations: seq<Migration>)
    requires Valid(newer) && Valid(older) && AllWellFormed(migrations)
    ensures SameRights(MigrateAll(newer, migrations), MigrateAll(older, migrations))
            <==> AgreeOutside(newer, older, migrations)
    ensures Keeps(newer, MigrateAll(newer, migrations)) && Keeps(older, MigrateAll(older, migrations))
  {
    Reached(newer, migrations);
    Reached(older, migrations);
    var a, b := MigrateAll(newer, migrations), MigrateAll(older, migrations);
    if AgreeOutside(newer, older, migrations) {
      forall c ensures c in a.ids.Keys <==> c in b.ids.Keys { }
      assert a.ids.Keys == b.ids.Keys;
    }
    if SameRights(a, b) {
      forall c | !AddedBy(migrations, c) ensures c in older.ids <==> c in newer.ids {
        assert c in a.ids.Keys <==> c in b.ids.Keys;
      }
      forall role, code | !GrantedBy(migrations, role, code)
        ensures Allowed(older, role, code) <==> Allowed(newer, role, code) {
        assert Allowed(a, role, code) <==> Allowed(b, role, code);
      }
    }
  }

  /** What a database has and allows once migrated. */
  lemma {:induction false} Reached(d: Database, migrations: seq<Migration>)
    requires Valid(d) && AllWellFormed(migrations)
    ensures var after := MigrateAll(d, migrations);
            && Valid(after) && Keeps(d, after)
            && (forall c :: c in after.ids <==> c in d.ids || AddedBy(migrations, c))
            && (forall role, code :: Allowed(after, role, code) <==>
                  Allowed(d, role, code) || (role in d.roles && GrantedBy(migrations, role, code)))
    ensures forall role, code :: Allowed(d, role, code) ==> role in d.roles
  {
    MigrateAllEffect(d, migrations);
    forall role, code | Allowed(d, role, code) ensures role in d.roles { assert (role, d.ids[code]) in d.grants; }
  }

  /** A newer seed adds nothing that the migrations would not add as well. */
  ghost predicate SeedWithin(newer: Database, older: Database, migrations: seq<Migration>) {
    && older.roles == newer.roles
    && older.ids.Keys <= newer.ids.Keys
    && (forall c :: c in newer.ids ==> c in older.ids || AddedBy(migrations, c))
    && (forall role, code :: Allowed(older, role, code) ==> Allowed(newer, role, code))
    && (forall role, code :: Allowed(newer, role, code) ==>
         Allowed(older, role, code) || GrantedBy(migrations, role, code))
  }

  /** So a seed that only ever runs ahead of its migrations does no harm. */
  lemma {:induction false} FreshAndOldAgree(newer: Database, older: Database, migrations: seq<Migration>)
    requires Valid(newer) && Valid(older) && AllWellFormed(migrations) && SeedWithin(newer, older, migrations)
    ensures SameRights(MigrateAll(newer, migrations), MigrateAll(older, migrations))
  {
    FreshAndOldAgreeIff(newer, older, migrations);
  }

  // ---- The script ------------------------------------------------------------------------------------

  class Permissions {
    var db: Database

    constructor (d: Database)
      ensures db == d
    {
      db := d;
    }

    /** Upserts every code and remembers the ids returned. */
    method UpsertCodes(codes: seq<Code>) returns (permissionIds: map<Code, nat>)
      modifies this
      ensures db == UpsertAll(old(db), codes)
      ensures forall c :: c in codes ==> c in permissionIds && c in db.ids && permissionIds[c] == db.ids[c]
    {
      permissionIds := map[];
      for i := 0 to |codes|
        invariant db == UpsertAll(old(db), codes[..i])
        invariant forall k :: 0 <= k < i ==>
                  codes[k] in permissionIds && codes[k] in db.ids && permissionIds[codes[k]] == db.ids[codes[k]]
      {
        assert codes[..i + 1][..i] == codes[..i];
        var code := codes[i];
        db := db.(ids := if code in db.ids then db.ids else db.ids[code := db.nextId], nextId := db.nextId + 1);
        permissionIds := permissionIds[code := db.ids[code]];
      }
      assert codes[..|codes|] == codes;
    }

    method InsertGrants(grants: seq<(Role, Code)>, permissionIds: map<Code, nat>)
      requires forall k :: 0 <= k < |grants| ==>
                 grants[k].1 in permissionIds && grants[k].1 in db.ids
                   && permissionIds[grants[k].1] == db.ids[grants[k].1]
      modifies this
      ensures db == GrantAll(old(db), grants)
    {
      for i := 0 to |grants|
        invariant db == GrantAll(old(db), grants[..i]) && db.ids == old(db).ids && db.roles == old(db).roles
      {
        assert grants[..i + 1][..i] == grants[..i];
        var g := grants[i];
        if g.0 in db.roles {
          db := db.(grants := db.grants + {(g.0, permissionIds[g.1])});
        }
      }
      assert grants[..|grants|] == grants;
    }

    method Upgrade(m: Migration)
      requires Valid(db) && WellFormed(m)
      modifies this
      ensures db == Migrate(old(db), m) && Valid(db)
    {
      MigrateEffect(db, m);
      var permissionIds := UpsertCodes(m.codes);
      InsertGrants(m.grants, permissionIds);
    }
  }
}
