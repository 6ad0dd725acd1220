/**
 Categories: slug normalisation, the three-state lifecycle, and the create,
 update and archive commands with their audit rows.
 */
module Categories {
  import opened Text
  import opened LockedRows

  type CategoryId = nat

  const MAX_SLUG_LENGTH := 200

  // ---- Slugs ------------------------------------------------------------------

  predicate IsSlugChar(c: char) {
    'a' <= c <= 'z' || '0' <= c <= '9'
  }

  /** The pattern: lowercase alphanumerics in groups joined by single hyphens. */
  predicate IsSlug(s: string) {
    s != [] && IsGroupTail(s, true)
  }

  /** A left-to-right reading of the pattern; `atStart` says a group has just been opened and is still empty. */
  predicate IsGroupTail(s: string, atStart: bool) {
    if s == [] then !atStart
    else if IsSlugChar(s[0]) then IsGroupTail(s[1..], false)
    else s[0] == '-' && !atStart && IsGroupTail(s[1..], true)
  }

  /** Nonempty groups, joined by single hyphens. */
  function Join(groups: seq<string>): string {
    if groups == [] then []
    else if |groups| == 1 then groups[0]
    else groups[0] + "-" + Join(groups[1..])
  }

  predicate IsGroup(g: string) {
    g != [] && forall i :: 0 <= i < |g| ==> IsSlugChar(g[i])
  }

  predicate Groups(groups: seq<string>) {
    groups != [] && forall i :: 0 <= i < |groups| ==> IsGroup(groups[i])
  }

  /** Reading a group moves past it. */
  lemma {:induction false} ReadGroup(g: string, rest: string, atStart: bool)
    requires forall i :: 0 <= i < |g| ==> IsSlugChar(g[i])
    ensures IsGroupTail(g + rest, atStart) == IsGroupTail(rest, atStart && g == [])
  {
    if g == [] {
      assert g + rest == rest;
    } else {
      assert (g + rest)[1..] == g[1..] + rest;
      ReadGroup(g[1..], rest, false);
    }
  }

  /** Every join of nonempty groups matches the pattern. */
  lemma {:induction false} JoinIsSlug(groups: seq<string>)
    requires Groups(groups)
    ensures IsSlug(Join(groups))
  {
    assert IsGroup(groups[0]);
    if |groups| == 1 {
      assert groups[0] + [] == groups[0];
      ReadGroup(groups[0], [], true);
    } else {
      var rest := Join(groups[1..]);
      JoinIsSlug(groups[1..]);
      assert groups[0] + "-" + rest == groups[0] + ("-" + rest);
      ReadGroup(groups[0], "-" + rest, true);
      assert ("-" + rest)[1..] == rest;
    }
  }

  /** The groups of a string that matches the pattern, of which `g` has been read. */
  function SplitFrom(g: string, s: string): seq<string>
    requires (forall i :: 0 <= i < |g| ==> IsSlugChar(g[i])) && IsGroupTail(s, g == [])
    decreases s
  {
    if s == [] then [g]
    else if s[0] == '-' then [g] + SplitFrom([], s[1..])
    else SplitFrom(g + [s[0]], s[1..])
  }

  lemma {:induction false} SplitFromGroups(g: string, s: string)
    requires (forall i :: 0 <= i < |g| ==> IsSlugChar(g[i])) && IsGroupTail(s, g == [])
    ensures Groups(SplitFrom(g, s)) && Join(SplitFrom(g, s)) == g + s
    decreases s
  {
    if s == [] {
      assert g + s == g;
    } else if s[0] == '-' {
      SplitFromGroups([], s[1..]);
      var rest := SplitFrom([], s[1..]);
      assert ([g] + rest)[1..] == rest;
      assert g + "-" + ([] + s[1..]) == g + s;
    } else {
      SplitFromGroups(g + [s[0]], s[1..]);
      assert g + [s[0]] + s[1..] == g + s;
    }
  }

  /** The pattern is exactly: nonempty groups of lowercase letters and digits joined by single hyphens. */
  lemma SlugsAreJoinedGroups(s: string)
    ensures IsSlug(s) <==> exists groups :: Groups(groups) && Join(groups) == s
  {
    if IsSlug(s) {
      SplitFromGroups([], s);
      assert [] + s == s;
    }
    forall groups | Groups(groups) && Join(groups) == s ensures IsSlug(s) {
      JoinIsSlug(groups);
    }
  }

  /**
   `str.lower()`. All that is used of it is that text which is already a slug
   comes back unchanged; what it does to the rest of Unicode is left open.
   */
  ghost predicate LowersLikePython(lower: string -> string) {
    forall s :: IsSlug(s) ==> lower(s) == s
  }

  function NormaliseSlug(lower: string -> string, raw: string): Option<string> {
    var candidate := lower(Strip(raw));
    if candidate == [] || |candidate| > MAX_SLUG_LENGTH || !IsSlug(candidate) then None else Some(candidate)
  }

  lemma {:induction false} SlugChars(s: string, atStart: bool, i: nat)
    requires IsGroupTail(s, atStart) && i < |s|
    ensures IsSlugChar(s[i]) || s[i] == '-'
  {
    if i > 0 {
      SlugChars(s[1..], s[0] == '-', i - 1);
    }
  }

  lemma SlugIsTrimmed(s: string)
    requires IsSlug(s)
    ensures Strip(s) == s
  {
    SlugChars(s, true, 0);
    SlugChars(s, true, |s| - 1);
    StripFixed(s);
  }

  /** Normalising what normalisation returned changes nothing: one slug has one spelling. */
  lemma NormaliseIsIdempotent(lower: string -> string, raw: string)
    requires LowersLikePython(lower)
    ensures var r := NormaliseSlug(lower, raw); r.Some? ==> NormaliseSlug(lower, r.value) == r
  {
    var r := NormaliseSlug(lower, raw);
    if r.Some? {
      SlugIsTrimmed(r.value);
    }
  }

  /** The fixed points are exactly the strings of the pattern within the length bound. */
  lemma FixedSlugs(lower: string -> string, s: string)
    requires LowersLikePython(lower)
    ensures NormaliseSlug(lower, s) == Some(s) <==> IsSlug(s) && |s| <= MAX_SLUG_LENGTH
  {
    if IsSlug(s) {
      SlugIsTrimmed(s);
    }
  }

  /** The stored form of what an admin typed: trimmed, in lower case, within the bound, and groups joined by single hyphens. */
  ghost predicate Canonical(lower: string -> string, raw: string, s: string) {
    s == lower(Strip(raw)) && |s| <= 200 && exists groups :: Groups(groups) && Join(groups) == s
  }

  /** Normalisation gives the canonical form wherever there is one, and refuses the rest. */
  lemma NormalisesExactly(lower: string -> string, raw: string)
    ensures forall s :: NormaliseSlug(lower, raw) == Some(s) <==> Canonical(lower, raw, s)
  {
    SlugsAreJoinedGroups(lower(Strip(raw)));
  }

  // ---- Rows and commands ------------------------------------------------------

  datatype Category = Category(name: string, slug: string, active: bool, archivedAt: Option<nat>)
  {
    predicate Archived() { archivedAt.Some? }
    predicate PubliclyVisible() { archivedAt.None? && active }
  }

  datatype Command =
    | Create(id: CategoryId, name: string, slug: string, active: bool)
    | Update(id: CategoryId, newName: Option<string>, newSlug: Option<string>, newActive: Option<bool>)
    | Archive(id: CategoryId, at: nat)

  function Or<T>(o: Option<T>, v: T): T {
    if o.Some? then o.value else v
  }

  function Patched(c: Category, name: Option<string>, slug: Option<string>, active: Option<bool>): Category {
    c.(name := Or(name, c.name), slug := Or(slug, c.slug), active := Or(active, c.active))
  }

  function ArchiveRow(c: Category, at: nat): Category {
    c.(archivedAt := Some(at), active := false)
  }

  function Decide(lower: string -> string, c: Command, row: Option<Category>): Option<Category> {
    match c
    case Create(_, name, slug, active) =>
      if row.Some? || NormaliseSlug(lower, slug).None? then None
      else Some(Category(name, NormaliseSlug(lower, slug).value, active, None))
    case Update(_, name, slug, active) =>
      if row.None? || row.value.Archived() || (slug.Some? && NormaliseSlug(lower, slug.value).None?) then None
      else Some(Patched(row.value, name, if slug.Some? then NormaliseSlug(lower, slug.value) else None, active))
    case Archive(_, at) =>
      if row.None? || row.value.Archived() then None else Some(ArchiveRow(row.value, at))
  }

  /** What an accepted command makes of the row it found, column by column. */
  ghost predicate Accepted(lower: string -> string, c: Command, before: Option<Category>, after: Category) {
    match c
    case Create(_, name, slug, active) =>
      before.None? && after.name == name && Canonical(lower, slug, after.slug) && after.active == active && after.archivedAt.None?
    case Update(_, name, slug, active) =>
      && before.Some? && before.value.archivedAt.None? && after.archivedAt.None?
      && after.name == (if name.Some? then name.value else before.value.name)
      && (if slug.Some? then Canonical(lower, slug.value, after.slug) else after.slug == before.value.slug)
      && after.active == if active.Some? then active.value else before.value.active
    case Archive(_, at) =>
      && before.Some? && before.value.archivedAt.None? && after.archivedAt == Some(at) && !after.active
      && after.name == before.value.name && after.slug == before.value.slug
  }

  /** A command stores a row exactly when it may, and then exactly that one. */
  lemma DecidesExactly(lower: string -> string, c: Command, before: Option<Category>, after: Category)
    ensures Decide(lower, c, before) == Some(after) <==> Accepted(lower, c, before, after)
  {
    match c
    case Create(_, _, slug, _) => NormalisesExactly(lower, slug);
    case Update(_, _, slug, _) =>
      if slug.Some? {
        NormalisesExactly(lower, slug.value);
      }
    case Archive(_, _) =>
  }

  predicate ShareLiveSlug(c: Category, d: Category) {
    !c.Archived() && !d.Archived() && c.slug == d.slug
  }

  /** `UNIQUE(slug) WHERE deleted_at IS NULL`: one entry per slug of a row that is not archived. */
  predicate UniqueIndex(rows: map<CategoryId, Category>) {
    forall a <- rows.Keys, b <- rows.Keys :: a != b ==> !ShareLiveSlug(rows[a], rows[b])
  }

  function CategoryRules(lower: string -> string): Rules<CategoryId, Category, Command> {
    Rules((c: Command) => c.id, (c, row) => Decide(lower, c, row), (c: Category, d: Category) => ShareLiveSlug(c, d))
  }

  /** A row whose slug is in canonical form, and which is not both archived and active. */
  predicate GoodRow(lower: string -> string, c: Category) {
    NormaliseSlug(lower, c.slug) == Some(c.slug) && (c.Archived() ==> !c.active)
  }

  lemma CommandsStoreGoodRows(lower: string -> string)
    requires LowersLikePython(lower)
    ensures Stores(CategoryRules(lower), (id, c) => GoodRow(lower, c))
  {
    forall c: Command, v: Option<Category> | Decide(lower, c, v).Some? && (v.Some? ==> GoodRow(lower, v.value))
      ensures GoodRow(lower, Decide(lower, c, v).value)
    {
      match c
      case Create(_, _, slug, _) => NormaliseIsIdempotent(lower, slug);
      case Update(_, _, slug, _) =>
        if slug.Some? {
          NormaliseIsIdempotent(lower, slug.value);
        }
      case Archive(_, _) =>
    }
  }

  /** In every state of every run: canonical slugs, inactive archives, and live slugs pairwise distinct. */
  lemma CategoriesStayGood(lower: string -> string, ss: seq<Store<CategoryId, Category, Command>>, es: seq<Event<Command>>, i: nat)
    requires LowersLikePython(lower) && Run(CategoryRules(lower), ss, es) && i < |ss| && ss[0].rows == map[]
    ensures forall id :: id in ss[i].rows ==> GoodRow(lower, ss[i].rows[id])
    ensures UniqueIndex(ss[i].rows)
  {
    CommandsStoreGoodRows(lower);
    RunKeeps(CategoryRules(lower), (id, c) => GoodRow(lower, c), ss, es, i);
    forall a, b | a in ss[i].rows && b in ss[i].rows && a != b ensures !ShareLiveSlug(ss[i].rows[a], ss[i].rows[b]) {
      assert Apart(CategoryRules(lower), ss[i].rows[a], ss[i].rows[b]);
    }
  }

  /** Archiving is final: the row never changes again and no audit row about it follows. */
  lemma ArchivedForGood(lower: string -> string, ss: seq<Store<CategoryId, Category, Command>>, es: seq<Event<Command>>, i: nat, j: nat,
                        id: CategoryId)
    requires Run(CategoryRules(lower), ss, es) && i <= j < |ss| && id in ss[i].rows && ss[i].rows[id].Archived()
    ensures id in ss[j].rows && ss[j].rows[id] == ss[i].rows[id]
    ensures |ss[i].audit| <= |ss[j].audit| && forall m :: |ss[i].audit| <= m < |ss[j].audit| ==> ss[j].audit[m].id != id
  {
    assert Terminal(CategoryRules(lower), ss[i].rows[id]);
    TerminalForGood(CategoryRules(lower), ss, es, i, j, id);
  }

  /** The audit rows of one category: each `before` is the previous `after`, and the last `after` is the stored row. */
  lemma CategoryAuditChain(lower: string -> string, ss: seq<Store<CategoryId, Category, Command>>, es: seq<Event<Command>>, n: nat,
                           id: CategoryId, i: int, j: int)
    requires Run(CategoryRules(lower), ss, es) && n < |ss| && Latest(ss[n].audit, id, i, j)
    ensures var audit := ss[n].audit;
      && (j < |audit| && audit[j].id == id ==> audit[j].before == Some(audit[i].after) && !audit[i].after.Archived())
      && (j == |audit| ==> id in ss[n].rows && ss[n].rows[id] == audit[i].after)
  {
    AuditChain(CategoryRules(lower), ss, es, n, id, i, j);
    if j < |ss[n].audit| && ss[n].audit[j].id == id {
      EntriesDecided(lower, ss, es, n, j);
    }
  }

  /** An audit row as some command decided it, on the value it names as its `before`. */
  ghost predicate IsDecided(lower: string -> string, entry: Entry<CategoryId, Category>) {
    && (exists c: Command :: c.id == entry.id && Decide(lower, c, entry.before) == Some(entry.after))
    && (entry.before.Some? ==> !entry.before.value.Archived())
  }

  lemma StepDecided(lower: string -> string, ss: seq<Store<CategoryId, Category, Command>>, es: seq<Event<Command>>, n: nat)
    requires Run(CategoryRules(lower), ss, es) && n < |es|
    ensures ss[n].audit <= ss[n + 1].audit && |ss[n + 1].audit| <= |ss[n].audit| + 1
    ensures |ss[n].audit| < |ss[n + 1].audit| ==> IsDecided(lower, ss[n + 1].audit[|ss[n].audit|])
  {
    StepRefines(CategoryRules(lower), ss, es, n);
    if |ss[n].audit| < |ss[n + 1].audit| {
      var c, entry := ss[n].txs[es[n].t].cmd, ss[n + 1].audit[|ss[n].audit|];
      assert Decide(lower, c, entry.before) == Some(entry.after);
    }
  }

  lemma {:induction false} EntriesDecided(lower: string -> string, ss: seq<Store<CategoryId, Category, Command>>, es: seq<Event<Command>>,
                                          n: nat, j: nat)
    requires Run(CategoryRules(lower), ss, es) && n < |ss| && j < |ss[n].audit|
    ensures IsDecided(lower, ss[n].audit[j])
  {
    if n > 0 {
      StepDecided(lower, ss, es, n - 1);
      if j < |ss[n - 1].audit| {
        EntriesDecided(lower, ss, es, n - 1, j);
      }
    }
  }

  predicate SlugFree(rows: map<CategoryId, Category>, slug: string) {
    forall id <- rows.Keys :: rows[id].slug == slug ==> rows[id].Archived()
  }

  /** A live row under a new identifier fits the index exactly when no live row has its slug. */
  lemma IndexAdmits(rows: map<CategoryId, Category>, newId: CategoryId, row: Category)
    requires UniqueIndex(rows) && newId !in rows && !row.Archived()
    ensures UniqueIndex(rows[newId := row]) <==> SlugFree(rows, row.slug)
  {
    var after := rows[newId := row];
    if UniqueIndex(after) {
      forall id | id in rows && rows[id].slug == row.slug ensures rows[id].Archived() {
        assert id != newId ==> !ShareLiveSlug(after[id], after[newId]);
      }
    }
    if SlugFree(rows, row.slug) {
      forall a, b | a in after && b in after && a != b ensures !ShareLiveSlug(after[a], after[b]) {
        assert a in rows && b in rows ==> !ShareLiveSlug(rows[a], rows[b]);
      }
    }
  }

  /** An archived slug can be claimed again: a create is accepted exactly when no live row has its canonical slug. */
  lemma SlugIsReleased(lower: string -> string, rows: map<CategoryId, Category>, newId: CategoryId, name: string, raw: string, active: bool)
    requires UniqueIndex(rows) && newId !in rows && NormaliseSlug(lower, raw).Some?
    ensures var slug, decided := NormaliseSlug(lower, raw).value, Decide(lower, Create(newId, name, raw, active), None);
      decided == Some(Category(name, slug, active, None)) && (UniqueIndex(rows[newId := decided.value]) <==> SlugFree(rows, slug))
  {
    IndexAdmits(rows, newId, Category(name, NormaliseSlug(lower, raw).value, active, None));
  }

  /** A changed row that does not fit the index shares its slug with another live row. */
  lemma UpdateClashes(rows: map<CategoryId, Category>, id: CategoryId, row: Category)
    requires UniqueIndex(rows) && id in rows && !UniqueIndex(rows[id := row])
    ensures exists q :: q in rows && q != id && ShareLiveSlug(row, rows[q])
  {
    var after := rows[id := row];
    var a, b :| a in after && b in after && a != b && ShareLiveSlug(after[a], after[b]);
    assert ShareLiveSlug(after[b], after[a]);
    if a != id && b != id {
      assert !ShareLiveSlug(rows[a], rows[b]);
    }
  }

  // ---- The entity and its commands --------------------------------------------

  class CategoryEntity {
    const id: CategoryId
    var name: string
    var slug: string
    var active: bool
    var archivedAt: Option<nat>

    constructor (id: CategoryId, row: Category)
      ensures this.id == id && Row() == row
    {
      this.id, name, slug, active, archivedAt := id, row.name, row.slug, row.active, row.archivedAt;
    }

    function Row(): Category
      reads this
    {
      Category(name, slug, active, archivedAt)
    }

    method ApplyUpdate(newName: Option<string>, newSlug: Option<string>, newActive: Option<bool>) returns (changed: bool)
      modifies this
      ensures archivedAt == old(archivedAt) && name == (if newName.Some? then newName.value else old(name))
      ensures slug == (if newSlug.Some? then newSlug.value else old(slug))
      ensures active == if newActive.Some? then newActive.value else old(active)
      ensures changed == (Row() != old(Row()))
    {
      changed := false;
      if newName.Some? && newName.value != name {
        name := newName.value;
        changed := true;
      }
      if newSlug.Some? && newSlug.value != slug {
        slug := newSlug.value;
        changed := true;
      }
      if newActive.Some? && newActive.value != active {
        active := newActive.value;
        changed := true;
      }
    }

    method Archive(at: nat)
      modifies this
      ensures Row() == old(Row()).(archivedAt := Some(at), active := false) && !Row().PubliclyVisible()
    {
      archivedAt := Some(at);
      active := false;
    }
  }

  datatype Answer = Done | ValueNotFound | NotMutable | InvalidSlug | SlugConflict

  class CategoryTable {
    var rows: map<CategoryId, Category>
    var audit: seq<Entry<CategoryId, Category>>

    constructor ()
      ensures rows == map[] && audit == []
    {
      rows, audit := map[], [];
    }

    /** What an accepted command does to the table and the log. */
    twostate predicate Did(lower: string -> string, c: Command)
      reads this
    {
      var before := Row(old(rows), c.id);
      && c.id in rows && Accepted(lower, c, before, rows[c.id]) && UniqueIndex(rows)
      && rows == old(rows)[c.id := rows[c.id]] && audit == old(audit) + [Entry(c.id, before, rows[c.id])]
    }

    method Create(lower: string -> string, id: CategoryId, name: string, slug: string, active: bool) returns (r: Answer)
      requires UniqueIndex(rows) && id !in rows
      modifies this
      ensures UniqueIndex(rows)
      ensures r.Done? ==> Did(lower, Command.Create(id, name, slug, active))
      ensures !r.Done? ==> rows == old(rows) && audit == old(audit)
      ensures r.InvalidSlug? <==> !exists s :: Canonical(lower, slug, s)
      ensures r.Done? || r.InvalidSlug? || r.SlugConflict?
      ensures r.SlugConflict? ==> exists q :: q in rows && rows[q].archivedAt.None? && Canonical(lower, slug, rows[q].slug)
    {
      NormalisesExactly(lower, slug);
      var canonical := NormaliseSlug(lower, slug);
      if canonical.None? {
        return InvalidSlug;
      }
      var row := Category(name, canonical.value, active, None);
      SlugIsReleased(lower, rows, id, name, slug, active);
      if !UniqueIndex(rows[id := row]) {
        return SlugConflict;
      }
      rows := rows[id := row];
      audit := audit + [Entry(id, None, row)];
      return Done;
    }

    method Update(lower: string -> string, id: CategoryId, name: Option<string>, slug: Option<string>, active: Option<bool>) returns (r: Answer)
      requires UniqueIndex(rows)
      modifies this
      ensures UniqueIndex(rows)
      ensures r.Done? ==> Did(lower, Command.Update(id, name, slug, active))
      ensures !r.Done? ==> rows == old(rows) && audit == old(audit)
      ensures r.ValueNotFound? <==> id !in old(rows)
      ensures r.NotMutable? <==> id in old(rows) && old(rows)[id].archivedAt.Some?
      ensures r.InvalidSlug? <==>
        id in old(rows) && old(rows)[id].archivedAt.None? && slug.Some? && !exists s :: Canonical(lower, slug.value, s)
      ensures r.SlugConflict? ==>
        slug.Some? && exists q :: q in rows && q != id && rows[q].archivedAt.None? && Canonical(lower, slug.value, rows[q].slug)
    {
      if id !in rows {
        return ValueNotFound;
      }
      var category := new CategoryEntity(id, rows[id]);
      if category.archivedAt.Some? {
        return NotMutable;
      }
      var before := category.Row();
      var canonical: Option<string> := None;
      if slug.Some? {
        NormalisesExactly(lower, slug.value);
        canonical := NormaliseSlug(lower, slug.value);
        if canonical.None? {
          return InvalidSlug;
        }
      }
      var changed := category.ApplyUpdate(name, canonical, active);
      if changed {
        if !UniqueIndex(rows[id := category.Row()]) {
          UpdateClashes(rows, id, category.Row());
          return SlugConflict;
        }
        rows := rows[id := category.Row()];
      }
      audit := audit + [Entry(id, Some(before), category.Row())];
      return Done;
    }

    method Archive(lower: string -> string, id: CategoryId, at: nat) returns (r: Answer)
      requires UniqueIndex(rows)
      modifies this
      ensures UniqueIndex(rows)
      ensures r.ValueNotFound? <==> id !in old(rows)
      ensures r.NotMutable? <==> id in old(rows) && old(rows)[id].archivedAt.Some?
      ensures r.Done? <==> id in old(rows) && old(rows)[id].archivedAt.None?
      ensures r.Done? ==> Did(lower, Command.Archive(id, at))
      ensures !r.Done? ==> rows == old(rows) && audit == old(audit)
    {
      if id !in rows {
        return ValueNotFound;
      }
      var category := new CategoryEntity(id, rows[id]);
      if category.archivedAt.Some? {
        return NotMutable;
      }
      var before := category.Row();
      category.Archive(at);
      ArchivingFreesSlug(rows, id, at);
      rows := rows[id := category.Row()];
      audit := audit + [Entry(id, Some(before), category.Row())];
      return Done;
    }
  }

  /** An archived row leaves the unique index, so archiving can never conflict. */
  lemma ArchivingFreesSlug(rows: map<CategoryId, Category>, id: CategoryId, at: nat)
    requires UniqueIndex(rows) && id in rows
    ensures UniqueIndex(rows[id := ArchiveRow(rows[id], at)])
  {
    var after := rows[id := ArchiveRow(rows[id], at)];
    forall a, b | a in after && b in after && a != b ensures !ShareLiveSlug(after[a], after[b]) {
      assert !ShareLiveSlug(rows[a], rows[b]);
    }
  }
}
