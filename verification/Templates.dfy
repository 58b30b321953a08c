/** Template storage: one table keyed by (user_id, name), the two queries that resolve a name for a user,
    and the view they must both give: the global templates overridden by the user's own. */
module Templates {
  import opened Options

  datatype Row = Row(userId: string, name: string, body: string)

  function Owner(userId: string): string {
    if userId == "" then GLOBAL else userId
  }

  /** The primary key. */
  predicate Unique(t: set<Row>) {
    forall a, b :: a in t && b in t && a.userId == b.userId && a.name == b.name ==> a == b
  }

  // ---- the queries ----

  /** A comes before b in the database's string order. */
  predicate Less(a: string, b: string) {
    b != "" && (a == "" || a[0] < b[0] || (a[0] == b[0] && Less(a[1..], b[1..])))
  }

  predicate Visible(r: Row, userId: string) {
    r.userId == userId || r.userId == GLOBAL
  }

  /** ORDER BY (user_id = 'global') ASC, user_id DESC */
  predicate Precedes(a: Row, b: Row) {
    (a.userId != GLOBAL && b.userId == GLOBAL)
    || ((a.userId == GLOBAL <==> b.userId == GLOBAL) && !Less(a.userId, b.userId))
  }

  /** The row that LIMIT 1, or DISTINCT ON (name), keeps. */
  predicate First(t: set<Row>, name: string, userId: string, r: Row) {
    && r in t && r.name == name && Visible(r, userId)
    && forall b :: b in t && b.name == name && Visible(b, userId) ==> Precedes(r, b)
  }

  /** The rows of SELECT DISTINCT ON (name): the first row of every visible name, in some order. */
  ghost predicate Listing(t: set<Row>, userId: string, rows: seq<Row>) {
    AllFirst(t, userId, rows) && Distinct(rows) && Covers(t, userId, rows)
  }

  ghost predicate AllFirst(t: set<Row>, userId: string, rows: seq<Row>) {
    forall r :: r in rows ==> First(t, r.name, userId, r)
  }

  predicate Distinct(rows: seq<Row>) {
    forall m, n :: 0 <= m < n < |rows| ==> rows[m].name != rows[n].name
  }

  ghost predicate Covers(t: set<Row>, userId: string, rows: seq<Row>) {
    forall r :: r in t && Visible(r, userId) ==> exists k :: 0 <= k < |rows| && rows[k].name == r.name
  }

  // ---- what a user sees ----

  function UserMap(t: set<Row>, userId: string): map<string, string>
    requires Unique(t)
  {
    map r | r in t && r.userId == userId :: r.name := r.body
  }

  /** The global templates, overridden by the user's. */
  function View(t: set<Row>, userId: string): map<string, string>
    requires Unique(t)
  {
    UserMap(t, GLOBAL) + UserMap(t, Owner(userId))
  }

  lemma UserMapOf(t: set<Row>, userId: string, name: string)
    requires Unique(t)
    ensures name in UserMap(t, userId) <==> exists r :: r in t && r.userId == userId && r.name == name
    ensures forall r :: r in t && r.userId == userId && r.name == name ==> UserMap(t, userId)[name] == r.body
  {
  }

  /** The order finds the overriding row: some row is first exactly when the view has the name, and a
      first row carries the view's body. */
  lemma FirstIsView(t: set<Row>, name: string, userId: string)
    requires Unique(t)
    ensures (exists r :: First(t, name, Owner(userId), r)) <==> name in View(t, userId)
    ensures forall r :: First(t, name, Owner(userId), r) ==> r.body == View(t, userId)[name]
  {
    var u := Owner(userId);
    UserMapOf(t, u, name);
    UserMapOf(t, GLOBAL, name);
    if r :| r in t && r.name == name && r.userId == u {
      LessIrreflexive(u);
      assert First(t, name, u, r);
    } else if r :| r in t && r.name == name && r.userId == GLOBAL {
      LessIrreflexive(GLOBAL);
      assert First(t, name, u, r);
    }
  }

  lemma {:induction false} LessIrreflexive(a: string)
    ensures !Less(a, a)
  {
    if a != "" {
      LessIrreflexive(a[1..]);
    }
  }

  function Filled(rows: seq<Row>): map<string, string> {
    if rows == [] then map[] else Filled(rows[..|rows| - 1])[rows[|rows| - 1].name := rows[|rows| - 1].body]
  }

  lemma {:induction false} FilledWith(rows: seq<Row>)
    requires Distinct(rows)
    ensures forall name :: name in Filled(rows) <==> exists k :: 0 <= k < |rows| && rows[k].name == name
    ensures forall k :: 0 <= k < |rows| ==> rows[k].name in Filled(rows) && Filled(rows)[rows[k].name] == rows[k].body
  {
    if rows != [] {
      var init := rows[..|rows| - 1];
      FilledWith(init);
      assert forall k :: 0 <= k < |init| ==> init[k] == rows[k];
    }
  }

  /** The map that GetAll fills from any listing is the view. */
  lemma ListingIsView(t: set<Row>, userId: string, rows: seq<Row>)
    requires Unique(t) && Listing(t, Owner(userId), rows)
    ensures Filled(rows) == View(t, userId)
  {
    FilledWith(rows);
    forall name ensures name in Filled(rows) <==> name in View(t, userId) {
      FirstIsView(t, name, userId);
    }
    forall name | name in Filled(rows) ensures Filled(rows)[name] == View(t, userId)[name] {
      FirstIsView(t, name, userId);
    }
  }

  function Outside(t: set<Row>, names: set<string>): set<Row> {
    set r | r in t && r.name !in names
  }

  lemma FirstOutside(t: set<Row>, names: set<string>, name: string, userId: string, r: Row)
    requires name !in names
    ensures First(Outside(t, names), name, userId, r) <==> First(t, name, userId, r)
  {
  }

  lemma Covered(t: set<Row>, names: set<string>, userId: string, rows: seq<Row>, row: Row)
    requires Covers(Outside(t, names), userId, rows)
    ensures Covers(Outside(t, names - {row.name}), userId, rows + [row])
  {
    var out := rows + [row];
    forall r | r in Outside(t, names - {row.name}) && Visible(r, userId)
      ensures exists k :: 0 <= k < |out| && out[k].name == r.name
    {
      if r.name == row.name {
        assert out[|rows|].name == r.name;
      } else {
        var k :| 0 <= k < |rows| && rows[k].name == r.name;
        assert out[k].name == r.name;
      }
    }
  }

  lemma StillFirst(t: set<Row>, names: set<string>, userId: string, r: Row, name: string)
    requires First(Outside(t, names), r.name, userId, r) && name in names
    ensures r.name != name && First(Outside(t, names - {name}), r.name, userId, r)
  {
    FirstOutside(t, names, r.name, userId, r);
    FirstOutside(t, names - {name}, r.name, userId, r);
  }

  /** The listing of some names, and one name more. */
  lemma ListingExtended(t: set<Row>, names: set<string>, userId: string, rows: seq<Row>, row: Row)
    requires row.name in names && First(t, row.name, userId, row) && Listing(Outside(t, names), userId, rows)
    ensures Listing(Outside(t, names - {row.name}), userId, rows + [row])
  {
    var part, out := Outside(t, names - {row.name}), rows + [row];
    FirstOutside(t, names - {row.name}, row.name, userId, row);
    Covered(t, names, userId, rows, row);
    forall r | r in rows ensures r.name != row.name && First(part, r.name, userId, r) {
      StillFirst(t, names, userId, r, row.name);
    }
  }

  // ---- saves ----

  datatype Saved = Saved(name: string, body: string, userId: string)

  /** INSERT ... ON CONFLICT (user_id, name) DO UPDATE SET body */
  function Upsert(t: set<Row>, s: Saved): set<Row> {
    (set r | r in t && !(r.userId == Owner(s.userId) && r.name == s.name)) + {Row(Owner(s.userId), s.name, s.body)}
  }

  lemma UpsertUnique(t: set<Row>, s: Saved)
    requires Unique(t)
    ensures Unique(Upsert(t, s))
  {
  }

  lemma UpsertEntry(t: set<Row>, s: Saved, userId: string, name: string)
    requires Unique(t) && Unique(Upsert(t, s))
    ensures name in UserMap(Upsert(t, s), userId) <==>
      (userId == Owner(s.userId) && name == s.name) || name in UserMap(t, userId)
    ensures name in UserMap(Upsert(t, s), userId) ==>
      UserMap(Upsert(t, s), userId)[name] ==
      if userId == Owner(s.userId) && name == s.name then s.body else UserMap(t, userId)[name]
  {
    var t' := Upsert(t, s);
    UserMapOf(t, userId, name);
    UserMapOf(t', userId, name);
    if userId == Owner(s.userId) && name == s.name {
      assert Row(userId, name, s.body) in t';
    } else {
      assert forall r: Row :: r.userId == userId && r.name == name ==> (r in t' <==> r in t);
    }
  }

  lemma UpsertUserMap(t: set<Row>, s: Saved, userId: string)
    requires Unique(t) && Unique(Upsert(t, s))
    ensures UserMap(Upsert(t, s), userId) ==
      if userId == Owner(s.userId) then UserMap(t, userId)[s.name := s.body] else UserMap(t, userId)
  {
    var m := if userId == Owner(s.userId) then UserMap(t, userId)[s.name := s.body] else UserMap(t, userId);
    var m' := UserMap(Upsert(t, s), userId);
    forall name ensures name in m' <==> name in m {
      UpsertEntry(t, s, userId, name);
    }
    forall name | name in m' ensures m'[name] == m[name] {
      UpsertEntry(t, s, userId, name);
    }
  }

  /** A user notices a save of their own, and a global one that they have not overridden. */
  predicate Notices(t: set<Row>, s: Saved, userId: string)
    requires Unique(t)
  {
    Owner(s.userId) == Owner(userId) || (Owner(s.userId) == GLOBAL && s.name !in UserMap(t, Owner(userId)))
  }

  /** What a save changes in everyone's view. */
  lemma SaveChangesViews(t: set<Row>, s: Saved, userId: string)
    requires Unique(t)
    ensures Unique(Upsert(t, s))
    ensures View(Upsert(t, s), userId) ==
      if Notices(t, s, userId) then View(t, userId)[s.name := s.body] else View(t, userId)
  {
    UpsertUnique(t, s);
    UpsertUserMap(t, s, GLOBAL);
    UpsertUserMap(t, s, Owner(userId));
    Overridden(UserMap(t, GLOBAL), UserMap(t, Owner(userId)),
               UserMap(Upsert(t, s), GLOBAL), UserMap(Upsert(t, s), Owner(userId)),
               Owner(s.userId) == GLOBAL, Owner(s.userId) == Owner(userId), s.name, s.body);
  }

  /** A name set below, above, or in both layers. */
  lemma Overridden(below: map<string, string>, above: map<string, string>, below': map<string, string>,
                   above': map<string, string>, low: bool, high: bool, name: string, body: string)
    requires below' == if low then below[name := body] else below
    requires above' == if high then above[name := body] else above
    ensures below' + above' ==
      if high || (low && name !in above) then (below + above)[name := body] else below + above
  {
  }

  function AfterSaves(t: set<Row>, saves: seq<Saved>): set<Row> {
    if saves == [] then t else Upsert(AfterSaves(t, saves[..|saves| - 1]), saves[|saves| - 1])
  }

  /** The saves that a user can notice: the user's own and the global ones. */
  function Relevant(saves: seq<Saved>, userId: string): seq<Saved> {
    if saves == [] then [] else
      var s := saves[|saves| - 1];
      Relevant(saves[..|saves| - 1], userId)
      + if Owner(s.userId) == Owner(userId) || Owner(s.userId) == GLOBAL then [s] else []
  }

  lemma {:induction false} SavesUnique(t: set<Row>, saves: seq<Saved>)
    requires Unique(t)
    ensures Unique(AfterSaves(t, saves))
  {
    if saves != [] {
      SavesUnique(t, saves[..|saves| - 1]);
      UpsertUnique(AfterSaves(t, saves[..|saves| - 1]), saves[|saves| - 1]);
    }
  }

  /** Isolation: a user's own and global rows after any saves are those after the relevant saves alone. */
  lemma {:induction false} IsolatedMaps(t: set<Row>, saves: seq<Saved>, userId: string, owner: string)
    requires Unique(t) && (owner == Owner(userId) || owner == GLOBAL)
    ensures Unique(AfterSaves(t, saves)) && Unique(AfterSaves(t, Relevant(saves, userId)))
    ensures UserMap(AfterSaves(t, saves), owner) == UserMap(AfterSaves(t, Relevant(saves, userId)), owner)
  {
    SavesUnique(t, saves);
    SavesUnique(t, Relevant(saves, userId));
    if saves != [] {
      var init, s := saves[..|saves| - 1], saves[|saves| - 1];
      IsolatedMaps(t, init, userId, owner);
      UpsertUserMap(AfterSaves(t, init), s, owner);
      var rel := Relevant(saves, userId);
      if Owner(s.userId) == Owner(userId) || Owner(s.userId) == GLOBAL {
        assert rel[..|rel| - 1] == Relevant(init, userId);
        UpsertUserMap(AfterSaves(t, Relevant(init, userId)), s, owner);
      } else {
        assert rel == Relevant(init, userId);
      }
    }
  }

  lemma SavesIsolated(t: set<Row>, saves: seq<Saved>, userId: string)
    requires Unique(t)
    ensures Unique(AfterSaves(t, saves)) && Unique(AfterSaves(t, Relevant(saves, userId)))
    ensures View(AfterSaves(t, saves), userId) == View(AfterSaves(t, Relevant(saves, userId)), userId)
  {
    IsolatedMaps(t, saves, userId, GLOBAL);
    IsolatedMaps(t, saves, userId, Owner(userId));
  }

  class TemplateRepository {
    var rows: set<Row>

    predicate Valid()
      reads this
    {
      Unique(rows)
    }

    constructor ()
      ensures Valid() && rows == {}
    {
      rows := {};
    }

    /** The upsert; with a database error (`ok` is false) nobody's view changes. */
    method Save(name: string, body: string, userId: string, ok: bool)
      requires Valid()
      modifies this
      ensures Valid() && rows == if ok then Upsert(old(rows), Saved(name, body, userId)) else old(rows)
      ensures forall u :: View(rows, u) == if ok && Notices(old(rows), Saved(name, body, userId), u)
                                           then View(old(rows), u)[name := body] else View(old(rows), u)
    {
      if !ok {
        return;
      }
      var owner := userId;
      if owner == "" {
        owner := GLOBAL;
      }
      ghost var before, s := rows, Saved(name, body, userId);
      rows := (set r | r in rows && !(r.userId == owner && r.name == name)) + {Row(owner, name, body)};
      assert rows == Upsert(before, s);
      UpsertUnique(before, s);
      forall u
        ensures View(rows, u) == if Notices(before, s, u) then View(before, u)[name := body] else View(before, u)
      {
        SaveChangesViews(before, s, u);
      }
    }

    /** The query's first row; no row, or a database error, is an error. */
    method Get(name: string, userId: string, ok: bool) returns (r: Option<string>)
      requires Valid()
      ensures r == if ok && name in View(rows, userId) then Some(View(rows, userId)[name]) else None
    {
      var owner := userId;
      if owner == "" {
        owner := GLOBAL;
      }
      FirstIsView(rows, name, userId);
      if !ok {
        r := None;
      } else if row :| row in rows && First(rows, name, owner, row) {
        r := Some(row.body);
      } else {
        r := None;
      }
    }

    /** The row that DISTINCT ON keeps for a visible name. */
    method FirstOf(name: string, owner: string) returns (row: Row)
      requires Valid() && owner != "" && exists r :: r in rows && Visible(r, owner) && r.name == name
      ensures First(rows, name, owner, row)
    {
      FirstIsView(rows, name, owner);
      UserMapOf(rows, owner, name);
      UserMapOf(rows, GLOBAL, name);
      row :| row in rows && First(rows, name, owner, row);
    }

    /** DISTINCT ON (name), one row at a time. */
    method SelectAll(owner: string) returns (listing: seq<Row>)
      requires Valid() && owner != ""
      ensures Listing(rows, owner, listing)
    {
      listing := [];
      var names := set r | r in rows && Visible(r, owner) :: r.name;
      while names != {}
        invariant names <= set r | r in rows && Visible(r, owner) :: r.name
        invariant Listing(Outside(rows, names), owner, listing)
        decreases names
      {
        var name :| name in names;
        var row := FirstOf(name, owner);
        ListingExtended(rows, names, owner, listing, row);
        listing, names := listing + [row], names - {name};
      }
      assert Outside(rows, {}) == rows;
    }

    /** Scans the listing into a map; a database error leaves no map at all. */
    method GetAll(userId: string, ok: bool) returns (r: Option<map<string, string>>)
      requires Valid()
      ensures r == if ok then Some(View(rows, userId)) else None
    {
      if !ok {
        return None;
      }
      var owner := userId;
      if owner == "" {
        owner := GLOBAL;
      }
      var listing := SelectAll(owner);
      var templates := map[];
      for k := 0 to |listing|
        invariant templates == Filled(listing[..k])
      {
        assert listing[..k + 1][..k] == listing[..k];
        templates := templates[listing[k].name := listing[k].body];
      }
      assert listing[..|listing|] == listing;
      ListingIsView(rows, userId, listing);
      r := Some(templates);
    }
  }
}
