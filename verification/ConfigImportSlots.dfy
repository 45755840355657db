/** Single slots: the active and the enabled provider; and what a dry run says beforehand. */
module ConfigImportSlots {
  import opened Options
  import opened ConfigImport
  import opened ConfigImportLaws

  // ---------------------------------------------------------------------------------------------
  // The active provider
  // ---------------------------------------------------------------------------------------------

  ghost predicate OneActive(m: Providers) {
    forall k, l :: k in m && l in m && m[k].active && m[l].active ==> k == l
  }

  /** Every active provider stays active. */
  ghost predicate ActiveStays(m: Providers, m': Providers) {
    forall k :: k in m && m[k].active ==> k in m' && m'[k].active
  }

  lemma {:induction false} ProviderStepKeepsSlot(m: Providers, mode: Mode, dry: bool, row: ProviderRow)
    ensures var m' := Put(m, row.name, ProviderChange(m, mode, row), dry);
            ActiveStays(m, m') && (OneActive(m) ==> OneActive(m'))
  {
    hide NextSecret, NewSecret, SecretOf;
    var m' := Put(m, row.name, ProviderChange(m, mode, row), dry);
    forall k | k in m' && k != row.name ensures k in m && m'[k] == m[k] {}
    if row.name in m' && m'[row.name].active && !(row.name in m && m[row.name].active) {
      assert !ActiveTaken(m, row.name);
    }
  }

  /** In either mode the target's active provider is never displaced, and at most one is active. */
  lemma {:induction false} ActiveProviderKept(m: Providers, mode: Mode, dry: bool, rows: seq<ProviderRow>)
    requires OneActive(m)
    ensures OneActive(ProvidersAfter(m, mode, dry, rows)) && ActiveStays(m, ProvidersAfter(m, mode, dry, rows))
    decreases |rows|
  {
    if rows != [] {
      ProviderStepKeepsSlot(m, mode, dry, rows[0]);
      var m' := Put(m, rows[0].name, ProviderChange(m, mode, rows[0]), dry);
      hide ProviderChange;
      ActiveProviderKept(m', mode, dry, rows[1..]);
    }
  }

  // ---------------------------------------------------------------------------------------------
  // The enabled external memory provider
  // ---------------------------------------------------------------------------------------------

  ghost predicate OneEnabled(m: Memories) {
    forall k, l :: k in m && l in m && m[k].enabled && m[l].enabled ==> k == l
  }

  lemma {:induction false} MemoryStepKeepsSlot(m: Memories, mode: Mode, row: MemoryRow, enabled: bool)
    requires OneEnabled(m)
    ensures OneEnabled(Put(m, row.name, MemoryChange(m, mode, false, row, enabled), false))
  {
  }

  /** In either mode, and whatever fails, at most one external memory provider stays enabled. */
  lemma {:induction false} OneEnabledKept(m: Memories, mode: Mode, rows: seq<MemoryRow>, free: bool)
    requires OneEnabled(m)
    ensures OneEnabled(MemoriesAfter(m, mode, false, rows, free))
    decreases |rows|
  {
    if rows != [] {
      var c := MemoryChange(m, mode, false, rows[0], Grants(rows[0], free));
      MemoryStepKeepsSlot(m, mode, rows[0], Grants(rows[0], free));
      hide MemoryChange;
      OneEnabledKept(Put(m, rows[0].name, c, false), mode, rows[1..], StillFree(c, rows[0], free));
    }
  }

  /** The provider that owns the slot and is not in the bundle keeps it, and nothing else is granted it. */
  lemma {:induction false} OwnerKeepsSlot(m: Memories, mode: Mode, rows: seq<MemoryRow>, owner: string)
    requires OneEnabled(m) && owner in m && m[owner].enabled && owner !in MemoryNames(rows)
    ensures var after := MemoriesAfter(m, mode, false, rows, SlotFree(m, rows));
            forall k :: k in after && after[k].enabled <==> k == owner
  {
    hide MemoriesAfter, MemoryChange;
    var after := MemoriesAfter(m, mode, false, rows, SlotFree(m, rows));
    OneEnabledKept(m, mode, rows, SlotFree(m, rows));
    assert forall j :: 0 <= j < |rows| ==> rows[j].name in MemoryNames(rows);
    OtherMemoriesKeep(m, mode, false, owner, rows, SlotFree(m, rows));
    assert At(after, owner) == At(m, owner);
    assert owner in after && after[owner].enabled;
  }

  /**
   * A row that is granted the slot while another provider of the target holds it fails: with the
   * slot free of outsiders, the holder is a provider the bundle names but has not yet disabled.
   */
  lemma {:induction false} GrantFails(m: Memories, mode: Mode, row: MemoryRow)
    requires mode.Overwrite? || row.name !in m
    requires row.enabled && (row.name in m ==> !m[row.name].enabled)
    ensures MemoryChange(m, mode, false, row, true).outcome.Failed?
            <==> OtherEnabled(m, row.name) || (row.name in m && m[row.name].kind != row.kind)
  {
  }

  // ---------------------------------------------------------------------------------------------
  // Dry runs
  // ---------------------------------------------------------------------------------------------

  lemma {:induction false} DryMapKeeps<R, E>(rule: Rule<R, E>, keyOf: R -> string, m: map<string, E>, rows: seq<R>)
    ensures MapAfter(rule, keyOf, m, true, rows) == m
    decreases |rows|
  {
    if rows != [] { DryMapKeeps(rule, keyOf, m, rows[1..]); }
  }

  lemma {:induction false} DryProvidersKeep(m: Providers, mode: Mode, rows: seq<ProviderRow>)
    ensures ProvidersAfter(m, mode, true, rows) == m
    decreases |rows|
  {
    if rows != [] { DryProvidersKeep(m, mode, rows[1..]); }
  }

  lemma {:induction false} DryBasesKeep(m: Bases, mode: Mode, rows: seq<BaseRow>)
    ensures BasesAfter(m, mode, true, rows) == m
    decreases |rows|
  {
    hide BaseChange;
    if rows != [] { DryBasesKeep(m, mode, rows[1..]); }
  }

  lemma {:induction false} DryMemoriesKeep(m: Memories, mode: Mode, rows: seq<MemoryRow>, free: bool)
    ensures MemoriesAfter(m, mode, true, rows, free) == m
    decreases |rows|
  {
    hide MemoryChange;
    if rows != [] {
      var c := MemoryChange(m, mode, true, rows[0], Grants(rows[0], free));
      DryMemoriesKeep(m, mode, rows[1..], StillFree(c, rows[0], free));
    }
  }

  /** A dry run writes nothing. */
  lemma {:induction false} DryRunWritesNothing(r: Registries, b: Bundle, x: Context)
    requires x.dry
    ensures ImportAfter(r, b, x) == r
  {
    hide ProvidersAfter, BasesAfter, MemoriesAfter, MapAfter, GlobalStep;
    DryProvidersKeep(r.providers, x.mode, b.providers);
    DryBasesKeep(r.bases, x.mode, b.bases);
    DryMemoriesKeep(r.memories, x.mode, b.memories, SlotFree(r.memories, b.memories));
    DryMapKeeps(SiteRule(x.mode), SiteName, r.sites, b.sites);
    DryMapKeeps(PluginRule(x.mode, PluginsBefore(x, r.plugins)), PluginKey, r.plugins, b.plugins);
    DryMapKeeps(SkillRule(x.mode, SkillsBefore(x, r.skills)), SkillName, r.skills, b.skills);
    DryMapKeeps(TargetRule(x.mode), TargetPlatform, r.targets, b.targets);
  }

  lemma {:induction false} MapForetold<R, E>(rule: Rule<R, E>, keyOf: R -> string, m: map<string, E>,
                                             real_: map<string, E>, rows: seq<R>)
    requires Distinct(keyOf, rows) && forall j :: 0 <= j < |rows| ==> At(m, keyOf(rows[j])) == At(real_, keyOf(rows[j]))
    ensures MapItems(rule, keyOf, m, true, rows) == MapItems(rule, keyOf, real_, false, rows)
    decreases |rows|
  {
    if rows != [] {
      var key := keyOf(rows[0]);
      var c := rule(rows[0], At(m, key));
      DistinctTail(keyOf, rows);
      MapForetold(rule, keyOf, m, Put(real_, key, c, false), rows[1..]);
    }
  }

  lemma {:induction false} SameProviderReport(m: Providers, n: Providers, mode: Mode, row: ProviderRow)
    requires At(m, row.name) == At(n, row.name)
    requires row.active ==> (ActiveTaken(m, row.name) <==> ActiveTaken(n, row.name))
    ensures Report(row.name, ProviderChange(m, mode, row)) == Report(row.name, ProviderChange(n, mode, row))
  {
  }

  lemma {:induction false} PutKeepsTaken(n: Providers, mode: Mode, other: ProviderRow, name: string)
    requires other.name != name && !other.active
    ensures ActiveTaken(Put(n, other.name, ProviderChange(n, mode, other), false), name) <==> ActiveTaken(n, name)
  {
    hide NextSecret, NewSecret, SecretOf;
    var n' := Put(n, other.name, ProviderChange(n, mode, other), false);
    forall k ensures (k in n' && n'[k].active) <==> (k in n && n[k].active) {}
    if k :| k in n && k != name && n[k].active { assert k in n' && n'[k].active; }
    if k :| k in n' && k != name && n'[k].active { assert k in n && n[k].active; }
  }

  lemma {:induction false} ProvidersForetold(m: Providers, n: Providers, mode: Mode, rows: seq<ProviderRow>)
    requires Distinct(ProviderName, rows) && OneWantsActive(rows)
    requires forall j :: 0 <= j < |rows| ==> At(m, rows[j].name) == At(n, rows[j].name)
    requires forall j :: 0 <= j < |rows| && rows[j].active ==>
               (ActiveTaken(m, rows[j].name) <==> ActiveTaken(n, rows[j].name))
    ensures ProviderItems(m, mode, true, rows) == ProviderItems(n, mode, false, rows)
    decreases |rows|
  {
    if rows != [] {
      var rest, n' := rows[1..], Put(n, rows[0].name, ProviderChange(n, mode, rows[0]), false);
      SameProviderReport(m, n, mode, rows[0]);
      DistinctTail(ProviderName, rows);
      forall j | 0 <= j < |rest| && rest[j].active
        ensures ActiveTaken(m, rest[j].name) <==> ActiveTaken(n', rest[j].name)
      {
        assert rest[j] == rows[j + 1];
        PutKeepsTaken(n, mode, rows[0], rest[j].name);
      }
      hide ProviderChange, ActiveTaken;
      ProvidersForetold(m, n', mode, rest);
    }
  }

  lemma {:induction false} SameBaseReport(m: Bases, n: Bases, mode: Mode, row: BaseRow)
    requires At(m, row.id) == At(n, row.id) && !BaseChange(n, mode, false, row).outcome.Failed?
    ensures BaseChange(m, mode, true, row) == BaseChange(n, mode, false, row)
  {
  }

  lemma {:induction false} BasesForetold(m: Bases, n: Bases, mode: Mode, rows: seq<BaseRow>)
    requires Distinct(BaseId, rows) && forall j :: 0 <= j < |rows| ==> At(m, rows[j].id) == At(n, rows[j].id)
    requires NoneFailed(BaseItems(n, mode, false, rows))
    ensures BaseItems(m, mode, true, rows) == BaseItems(n, mode, false, rows)
    decreases |rows|
  {
    hide BaseChange;
    if rows != [] {
      var c := BaseChange(n, mode, false, rows[0]);
      var n' := Put(n, rows[0].id, c, false);
      IdleCons(Report(rows[0].id, c), BaseItems(n', mode, false, rows[1..]));
      SameBaseReport(m, n, mode, rows[0]);
      DistinctTail(BaseId, rows);
      BasesForetold(m, n', mode, rows[1..]);
    }
  }

  lemma {:induction false} SameMemoryReport(m: Memories, n: Memories, mode: Mode, row: MemoryRow, enabled: bool)
    requires At(m, row.name) == At(n, row.name) && !MemoryChange(n, mode, false, row, enabled).outcome.Failed?
    ensures MemoryChange(m, mode, true, row, enabled) == MemoryChange(n, mode, false, row, enabled)
  {
  }

  lemma {:induction false} MemoriesForetold(m: Memories, n: Memories, mode: Mode, rows: seq<MemoryRow>, free: bool)
    requires Distinct(MemoryName, rows) && forall j :: 0 <= j < |rows| ==> At(m, rows[j].name) == At(n, rows[j].name)
    requires NoneFailed(MemoryItems(n, mode, false, rows, free))
    ensures MemoryItems(m, mode, true, rows, free) == MemoryItems(n, mode, false, rows, free)
    decreases |rows|
  {
    hide MemoryChange;
    if rows != [] {
      var c := MemoryChange(n, mode, false, rows[0], Grants(rows[0], free));
      var n', free' := Put(n, rows[0].name, c, false), StillFree(c, rows[0], free);
      IdleCons(Report(rows[0].name, c), MemoryItems(n', mode, false, rows[1..], free'));
      SameMemoryReport(m, n, mode, rows[0], Grants(rows[0], free));
      DistinctTail(MemoryName, rows);
      MemoriesForetold(m, n', mode, rows[1..], free');
    }
  }

  /** The report, put together with a given item for the global set. */
  function ItemsWith(r: Registries, b: Bundle, x: Context, global: Item): seq<Item> {
    ProviderItems(r.providers, x.mode, x.dry, b.providers)
    + BaseItems(r.bases, x.mode, x.dry, b.bases)
    + MapItems(SiteRule(x.mode), SiteName, r.sites, x.dry, b.sites)
    + MemoryItems(r.memories, x.mode, x.dry, b.memories, SlotFree(r.memories, b.memories))
    + [global]
    + MapItems(PluginRule(x.mode, PluginsBefore(x, r.plugins)), PluginKey, r.plugins, x.dry, b.plugins)
    + MapItems(SkillRule(x.mode, SkillsBefore(x, r.skills)), SkillName, r.skills, x.dry, b.skills)
    + MapItems(TargetRule(x.mode), TargetPlatform, r.targets, x.dry, b.targets)
  }

  function GlobalItem(r: Registries, b: Bundle, x: Context): Item {
    var memories := MemoriesAfter(r.memories, x.mode, x.dry, b.memories, SlotFree(r.memories, b.memories));
    Report(GLOBAL_KEY, GlobalStep(r, b, x, memories))
  }

  /** The report is decided by the item for the global set. */
  lemma {:induction false} ItemsDiffer(r: Registries, b: Bundle, x: Context, i: Item, j: Item)
    ensures ItemsWith(r, b, x, i) == ItemsWith(r, b, x, j) <==> i == j
  {
    hide ProviderItems, BaseItems, MapItems, MemoryItems, SlotFree;
    var n := |ProviderItems(r.providers, x.mode, x.dry, b.providers)| + |BaseItems(r.bases, x.mode, x.dry, b.bases)|
             + |MapItems(SiteRule(x.mode), SiteName, r.sites, x.dry, b.sites)|
             + |MemoryItems(r.memories, x.mode, x.dry, b.memories, SlotFree(r.memories, b.memories))|;
    assert ItemsWith(r, b, x, i)[n] == i && ItemsWith(r, b, x, j)[n] == j;
  }

  /** A wanted name that neither the target nor the bundle's own rows provide. */
  predicate Dangling(m: Memories, names: set<string>, wanted: seq<string>) {
    exists i :: 0 <= i < |wanted| && wanted[i] !in m && wanted[i] !in names && wanted[i] != BUILTIN
  }

  /** A wanted name that the bundle's own rows are about to create. */
  predicate Promised(m: Memories, names: set<string>, wanted: seq<string>) {
    exists i :: 0 <= i < |wanted| && wanted[i] !in m && wanted[i] in names && wanted[i] != BUILTIN
  }

  /** The wanted names that resolve, where `known` do. */
  function Resolved(known: set<string>, wanted: seq<string>): set<string> {
    set i | 0 <= i < |wanted| && (wanted[i] in known || wanted[i] == BUILTIN) :: wanted[i]
  }

  /**
   * When a dry run reads the global set as the real run will: nothing is to be set, or no wanted name
   * is about to be created, or both runs drop another name and neither finds the set in place.
   */
  predicate GlobalForetold(current: Option<set<string>>, m: Memories, names: set<string>, mode: Mode,
                           section: Option<seq<string>>)
  {
    || section.None? || SlotOwned(m, names) || (mode.Merge? && current.Some?) || !Promised(m, names, section.value)
    || (Dangling(m, names, section.value)
        && current != Some(Resolved(m.Keys, section.value)) && current != Some(Resolved(m.Keys + names, section.value)))
  }

  /** Without a failure, every name of the bundle is there afterwards. */
  lemma {:induction false} NamesAreCreated(m: Memories, mode: Mode, rows: seq<MemoryRow>, free: bool)
    requires NoneFailed(MemoryItems(m, mode, false, rows, free))
    ensures MemoriesAfter(m, mode, false, rows, free).Keys == m.Keys + MemoryNames(rows)
    decreases |rows|
  {
    if rows != [] {
      var c := MemoryChange(m, mode, false, rows[0], Grants(rows[0], free));
      var m', free' := Put(m, rows[0].name, c, false), StillFree(c, rows[0], free);
      IdleCons(Report(rows[0].name, c), MemoryItems(m', mode, false, rows[1..], free'));
      assert m'.Keys == m.Keys + {rows[0].name};
      hide MemoryChange, NextSecret, NewSecret, SecretOf;
      NamesAreCreated(m', mode, rows[1..], free');
      NamesOf(rows);
    }
  }

  lemma {:induction false} NamesOf(rows: seq<MemoryRow>)
    requires rows != []
    ensures MemoryNames(rows) == {rows[0].name} + MemoryNames(rows[1..])
  {
    forall n | n in MemoryNames(rows) ensures n in {rows[0].name} + MemoryNames(rows[1..]) {
      var i :| 0 <= i < |rows| && rows[i].name == n;
      if i > 0 { assert rows[1..][i - 1].name == n; }
    }
    forall i | 0 <= i < |rows| - 1 ensures rows[1..][i].name in MemoryNames(rows) {
      assert rows[1..][i] == rows[i + 1];
    }
  }

  /** The two readings of the global set, over providers that differ by the created ones. */
  lemma {:induction false} GlobalForetoldExactly(current: Option<set<string>>, m: Memories,
                                                 done: Memories, names: set<string>,
                                                 mode: Mode, section: Option<seq<string>>)
    requires done.Keys == m.Keys + names && (SlotOwned(done, names) <==> SlotOwned(m, names))
    ensures var seen := GlobalChange(current, m, names, mode, section);
            var real_ := GlobalChange(current, done, names, mode, section);
            Report(GLOBAL_KEY, seen) == Report(GLOBAL_KEY, real_) <==> GlobalForetold(current, m, names, mode, section)
  {
    if section.Some? && !SlotOwned(m, names) && !(mode.Merge? && current.Some?) {
      hide SlotOwned;
      var wanted := section.value;
      if Promised(m, names, wanted) {
        var i :| 0 <= i < |wanted| && wanted[i] !in m && wanted[i] in names && wanted[i] != BUILTIN;
        assert wanted[i] in Resolved(m.Keys + names, wanted) && wanted[i] !in Resolved(m.Keys, wanted);
      } else {
        assert Resolved(m.Keys + names, wanted) == Resolved(m.Keys, wanted);
      }
    }
  }

  /**
   * If nothing in the real run fails, a dry run reports what the real run will, item for item, and the
   * whole reports are equal exactly when the item for the global set is foretold.
   */
  lemma {:induction false} DryRunForetells(r: Registries, b: Bundle, x: Context)
    requires ValidBundle(b) && !x.dry && NoneFailed(ImportItems(r, b, x))
    ensures ImportItems(r, b, x) == ItemsWith(r, b, x, GlobalItem(r, b, x))
    ensures ImportItems(r, b, x.(dry := true)) == ItemsWith(r, b, x, GlobalItem(r, b, x.(dry := true)))
    ensures ImportItems(r, b, x.(dry := true)) == ImportItems(r, b, x)
            <==> GlobalForetold(r.global, r.memories, MemoryNames(b.memories), x.mode, b.global)
  {
    ItemsApart(r, b, x);
    var seen, done := GlobalItem(r, b, x.(dry := true)), GlobalItem(r, b, x);
    GlobalItemForetold(r, b, x);
    hide AllIdle, NoneFailed, ProvidersAfter, ProviderItems, BasesAfter, BaseItems, MemoriesAfter, MemoryItems,
         MapItems, GlobalChange, GlobalForetold, SlotFree, Idle, ActiveTaken;
    ProvidersForetold(r.providers, r.providers, x.mode, b.providers);
    BasesForetold(r.bases, r.bases, x.mode, b.bases);
    MemoriesForetold(r.memories, r.memories, x.mode, b.memories, SlotFree(r.memories, b.memories));
    MapForetold(SiteRule(x.mode), SiteName, r.sites, r.sites, b.sites);
    MapForetold(PluginRule(x.mode, PluginsBefore(x, r.plugins)), PluginKey, r.plugins, r.plugins, b.plugins);
    MapForetold(SkillRule(x.mode, SkillsBefore(x, r.skills)), SkillName, r.skills, r.skills, b.skills);
    MapForetold(TargetRule(x.mode), TargetPlatform, r.targets, r.targets, b.targets);
    ItemsDiffer(r, b, x, seen, done);
  }

  lemma {:induction false} GlobalItemForetold(r: Registries, b: Bundle, x: Context)
    requires !x.dry && NoneFailed(MemoryItems(r.memories, x.mode, x.dry, b.memories, SlotFree(r.memories, b.memories)))
    ensures GlobalItem(r, b, x.(dry := true)) == GlobalItem(r, b, x)
            <==> GlobalForetold(r.global, r.memories, MemoryNames(b.memories), x.mode, b.global)
  {
    hide MemoriesAfter, MemoryItems, NoneFailed, GlobalChange, GlobalForetold, SlotOwned;
    var free := SlotFree(r.memories, b.memories);
    var done := MemoriesAfter(r.memories, x.mode, false, b.memories, free);
    NamesAreCreated(r.memories, x.mode, b.memories, free);
    SlotFreeStays(r.memories, b.memories, x.mode, false, free);
    DryMemoriesKeep(r.memories, x.mode, b.memories, free);
    GlobalForetoldExactly(r.global, r.memories, done, MemoryNames(b.memories), x.mode, b.global);
  }

  /** A dry run takes a provider that the bundle is about to create for one that does not resolve. */
  lemma {:induction false} DryRunMisreadsGlobal(row: MemoryRow)
    requires !row.enabled && row.name != BUILTIN
    ensures !GlobalForetold(None, map[], MemoryNames([row]), Overwrite, Some([row.name]))
    ensures var dry := MemoriesAfter(map[], Overwrite, true, [row], true);
            var done := MemoriesAfter(map[], Overwrite, false, [row], true);
            var wanted := Some([row.name]);
            GlobalChange(None, dry, {row.name}, Overwrite, wanted).outcome.Degraded?
            && GlobalChange(None, done, {row.name}, Overwrite, wanted).outcome.WasUpdated?
  {
    hide SecretOf;
    assert [row][0].name in MemoryNames([row]);
    assert [row.name][0] == row.name && Promised(map[], MemoryNames([row]), [row.name]);
    assert [row][1..] == [];
    var c := MemoryChange(map[], Overwrite, false, row, false);
    var done := MemoriesAfter(map[], Overwrite, false, [row], true);
    assert !Grants(row, true);
    assert c == Change(Some(NewMemory(row, false)), Created, c.outcome);
    var m := Put(map[], row.name, c, false);
    assert done == MemoriesAfter(m, Overwrite, false, [row][1..], StillFree(c, row, true)) == m;
    assert MemoriesAfter(map[], Overwrite, true, [row], true) == map[];
  }
}
