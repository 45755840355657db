/** Importing a bundle again: secrets, every section by itself, and the whole report. */
module ConfigImportLaws {
  import opened Options
  import opened ConfigImport

  /** The item wrote nothing and hit no error. */
  predicate Idle(i: Item) { i.action.NoAction? && !i.outcome.Failed? }

  ghost predicate AllIdle(items: seq<Item>) { forall i :: 0 <= i < |items| ==> Idle(items[i]) }

  ghost predicate NoneFailed(items: seq<Item>) { forall i :: 0 <= i < |items| ==> !items[i].outcome.Failed? }

  lemma {:induction false} IdleAppend(a: seq<Item>, b: seq<Item>)
    ensures AllIdle(a + b) <==> AllIdle(a) && AllIdle(b)
    ensures NoneFailed(a + b) <==> NoneFailed(a) && NoneFailed(b)
  {
    var c := a + b;
    assert forall i :: 0 <= i < |a| ==> c[i] == a[i];
    assert forall i :: 0 <= i < |b| ==> b[i] == c[|a| + i];
  }

  lemma {:induction false} IdleCons(i: Item, rest: seq<Item>)
    ensures AllIdle([i] + rest) <==> Idle(i) && AllIdle(rest)
    ensures NoneFailed([i] + rest) <==> !i.outcome.Failed? && NoneFailed(rest)
  {
    IdleAppend([i], rest);
    assert [i][0] == i;
  }

  lemma {:induction false} DistinctTail<R>(keyOf: R -> string, rows: seq<R>)
    requires Distinct(keyOf, rows) && rows != []
    ensures Distinct(keyOf, rows[1..])
    ensures forall j :: 0 <= j < |rows| - 1 ==> keyOf(rows[1..][j]) != keyOf(rows[0])
  {
  }

  // ---------------------------------------------------------------------------------------------
  // Sections whose rows do not meet
  // ---------------------------------------------------------------------------------------------

  /** Applying a row to what it made of a record changes nothing. */
  ghost predicate SettlesAtOnce<R(!new), E(!new)>(rule: Rule<R, E>) {
    forall r, e ::
      && Stays(rule, r, rule(r, e).entity) && !rule(r, e).outcome.Failed?
      && (e.Some? ==> rule(r, e).entity.Some?)
                   && (rule(r, e).action.NoAction? ==> rule(r, e).entity == e)
  }

  ghost predicate Stays<R, E>(rule: Rule<R, E>, r: R, e: Option<E>) {
    rule(r, e).action.NoAction? && rule(r, e).entity == e && !rule(r, e).outcome.Failed?
  }

  lemma {:induction false} OthersKeepKey<R, E>(rule: Rule<R, E>, keyOf: R -> string, m: map<string, E>, rows: seq<R>,
                                               key: string)
    requires forall j :: 0 <= j < |rows| ==> keyOf(rows[j]) != key
    ensures At(MapAfter(rule, keyOf, m, false, rows), key) == At(m, key)
    decreases |rows|
  {
    if rows != [] {
      OthersKeepKey(rule, keyOf, Put(m, keyOf(rows[0]), rule(rows[0], At(m, keyOf(rows[0]))), false), rows[1..], key);
    }
  }

  /** After one pass every row leaves its record alone. */
  lemma {:induction false} PassSettles<R(!new), E(!new)>(rule: Rule<R, E>, keyOf: R -> string, m: map<string, E>,
                                                         rows: seq<R>)
    requires SettlesAtOnce(rule) && Distinct(keyOf, rows)
    ensures forall j :: 0 <= j < |rows| ==>
              Stays(rule, rows[j], At(MapAfter(rule, keyOf, m, false, rows), keyOf(rows[j])))
    decreases |rows|
  {
    hide Stays;
    if rows != [] {
      var key, rest := keyOf(rows[0]), rows[1..];
      var c := rule(rows[0], At(m, key));
      var m' := Put(m, key, c, false);
      var after := MapAfter(rule, keyOf, m', false, rest);
      DistinctTail(keyOf, rows);
      PassSettles(rule, keyOf, m', rest);
      OthersKeepKey(rule, keyOf, m', rest, key);
      assert Stays(rule, rows[0], c.entity);
      assert At(m', key) == c.entity;
      forall j | 0 <= j < |rows| ensures Stays(rule, rows[j], At(after, keyOf(rows[j]))) {
        if j > 0 { assert rows[j] == rest[j - 1]; }
      }
    }
  }

  lemma {:induction false} SettledPass<R, E>(rule: Rule<R, E>, keyOf: R -> string, m: map<string, E>, rows: seq<R>)
    requires forall j :: 0 <= j < |rows| ==> Stays(rule, rows[j], At(m, keyOf(rows[j])))
    ensures MapAfter(rule, keyOf, m, false, rows) == m && AllIdle(MapItems(rule, keyOf, m, false, rows))
    decreases |rows|
  {
    if rows != [] {
      var key := keyOf(rows[0]);
      var c := rule(rows[0], At(m, key));
      assert Stays(rule, rows[0], At(m, key));
      SettledPass(rule, keyOf, m, rows[1..]);
      hide Stays;
      IdleCons(Report(key, c), MapItems(rule, keyOf, m, false, rows[1..]));
    }
  }

  lemma {:induction false} RowsTwice<R(!new), E(!new)>(rule: Rule<R, E>, keyOf: R -> string, m: map<string, E>,
                                                       rows: seq<R>)
    requires SettlesAtOnce(rule) && Distinct(keyOf, rows)
    ensures var after := MapAfter(rule, keyOf, m, false, rows);
            MapAfter(rule, keyOf, after, false, rows) == after && AllIdle(MapItems(rule, keyOf, after, false, rows))
  {
    hide Stays, SettlesAtOnce;
    PassSettles(rule, keyOf, m, rows);
    SettledPass(rule, keyOf, MapAfter(rule, keyOf, m, false, rows), rows);
  }

  lemma {:induction false} SitesSettle()
    ensures SettlesAtOnce(SiteRule(Overwrite))
  {
  }

  lemma {:induction false} PluginsSettle(pre: set<string>)
    ensures SettlesAtOnce(PluginRule(Overwrite, pre))
  {
    var rule := PluginRule(Overwrite, pre);
    forall r, e ensures Stays(rule, r, rule(r, e).entity) && !rule(r, e).outcome.Failed?
                        && (e.Some? ==> rule(r, e).entity.Some?)
                        && (rule(r, e).action.NoAction? ==> rule(r, e).entity == e)
    {
      assert rule(r, e) == PluginChange(Overwrite, pre, r, e);
      var e' := rule(r, e).entity;
      assert rule(r, e') == PluginChange(Overwrite, pre, r, e');
      if e.Some? {
        assert e.value.secrets + Given(r.secrets, map[]) + Given(r.secrets, map[])
               == e.value.secrets + Given(r.secrets, map[]);
      }
    }
  }

  lemma {:induction false} SkillsSettle(pre: set<string>)
    ensures SettlesAtOnce(SkillRule(Overwrite, pre))
  {
  }

  lemma {:induction false} TargetsSettle()
    ensures SettlesAtOnce(TargetRule(Overwrite))
  {
  }

  lemma {:induction false} KeysStay<R(!new), E(!new)>(rule: Rule<R, E>, keyOf: R -> string, m: map<string, E>,
                                                      rows: seq<R>)
    requires forall r :: rule(r, None).action.NoAction?
    ensures MapAfter(rule, keyOf, m, false, rows).Keys == m.Keys
    decreases |rows|
  {
    if rows != [] {
      var key := keyOf(rows[0]);
      KeysStay(rule, keyOf, Put(m, key, rule(rows[0], At(m, key)), false), rows[1..]);
    }
  }

  // ---------------------------------------------------------------------------------------------
  // Providers
  // ---------------------------------------------------------------------------------------------

  ghost predicate ProviderSettled(m: Providers, row: ProviderRow) { ProviderChange(m, Overwrite, row).action.NoAction? }

  /** The row is not about to create a record that the registry stores differently. */
  ghost predicate ProviderFresh(m: Providers, row: ProviderRow) {
    row.name in m || (row.headers != Some(map[]) && row.kind != Some(""))
  }

  function ProviderPut(m: Providers, row: ProviderRow): Providers {
    Put(m, row.name, ProviderChange(m, Overwrite, row), false)
  }

  lemma {:induction false} SecretSettles(f: Field, current: Option<string>)
    ensures NextSecret(SecretOf(f), NewSecret(SecretOf(f))) == NewSecret(SecretOf(f))
    ensures NextSecret(SecretOf(f), NextSecret(SecretOf(f), current)) == NextSecret(SecretOf(f), current)
  {
  }

  lemma {:induction false} SameTaken(m: Providers, m': Providers, name: string)
    requires m - {name} == m' - {name}
    ensures ActiveTaken(m, name) <==> ActiveTaken(m', name)
  {
    if k :| k in m && k != name && m[k].active { assert k in m' - {name} && (m' - {name})[k] == m[k]; }
    if k :| k in m' && k != name && m'[k].active { assert k in m - {name} && (m - {name})[k] == m'[k]; }
  }

  lemma {:induction false} ProviderStepSettles(m: Providers, row: ProviderRow)
    ensures row.name in ProviderPut(m, row)
    ensures ProviderSettled(ProviderPut(m, row), row) <==> ProviderFresh(m, row)
  {
    var m' := ProviderPut(m, row);
    assert m - {row.name} == m' - {row.name};
    SameTaken(m, m', row.name);
    hide ActiveTaken;
    var taken := ActiveTaken(m, row.name);
    if row.name in m {
      SecretSettles(row.apiKey, m[row.name].apiKey);
      hide NextSecret, NewSecret, SecretOf;
      assert m'[row.name] == NextProvider(m[row.name], row, taken);
    } else {
      SecretSettles(row.apiKey, None);
      hide NextSecret, NewSecret, SecretOf;
      assert m'[row.name] == NewProvider(row, taken);
    }
  }

  /** Whether the slot is taken does not depend on a row that does not want it. */
  lemma {:induction false} StepKeepsTaken(m: Providers, other: ProviderRow, name: string)
    requires other.name != name && !other.active
    ensures ActiveTaken(ProviderPut(m, other), name) <==> ActiveTaken(m, name)
  {
    hide NextSecret, NewSecret, SecretOf;
    var m' := ProviderPut(m, other);
    forall k ensures (k in m' && m'[k].active) <==> (k in m && m[k].active) {}
    if k :| k in m && k != name && m[k].active { assert k in m' && m'[k].active; }
    if k :| k in m' && k != name && m'[k].active { assert k in m && m[k].active; }
  }

  lemma {:induction false} OtherProviderKeeps(m: Providers, row: ProviderRow, other: ProviderRow)
    requires other.name != row.name && !(row.active && other.active)
    ensures At(ProviderPut(m, other), row.name) == At(m, row.name)
    ensures ProviderSettled(ProviderPut(m, other), row) <==> ProviderSettled(m, row)
  {
    if row.active { StepKeepsTaken(m, other, row.name); }
    hide ActiveTaken, NextSecret, NewSecret, SecretOf;
  }

  ghost predicate OneWantsActive(rows: seq<ProviderRow>) {
    forall i, j :: 0 <= i < j < |rows| ==> !(rows[i].active && rows[j].active)
  }

  lemma {:induction false} OtherProvidersKeep(m: Providers, row: ProviderRow, rows: seq<ProviderRow>)
    requires forall j :: 0 <= j < |rows| ==> rows[j].name != row.name && !(row.active && rows[j].active)
    ensures ProviderSettled(ProvidersAfter(m, Overwrite, false, rows), row) <==> ProviderSettled(m, row)
    decreases |rows|
  {
    hide ProviderSettled, ProviderChange;
    if rows != [] {
      OtherProviderKeeps(m, row, rows[0]);
      OtherProvidersKeep(ProviderPut(m, rows[0]), row, rows[1..]);
    }
  }

  /** After one pass a row leaves its provider alone exactly when it was fresh. */
  lemma {:induction false} ProvidersSettle(m: Providers, rows: seq<ProviderRow>)
    requires Distinct(ProviderName, rows) && OneWantsActive(rows)
    ensures forall j :: 0 <= j < |rows| ==>
              (ProviderSettled(ProvidersAfter(m, Overwrite, false, rows), rows[j]) <==> ProviderFresh(m, rows[j]))
    decreases |rows|
  {
    hide ProviderSettled, ProviderChange;
    if rows != [] {
      var row, rest, m' := rows[0], rows[1..], ProviderPut(m, rows[0]);
      DistinctTail(ProviderName, rows);
      ProvidersSettle(m', rest);
      ProviderStepSettles(m, row);
      OtherProvidersKeep(m', row, rest);
      var after := ProvidersAfter(m', Overwrite, false, rest);
      forall j | 0 <= j < |rows| ensures ProviderSettled(after, rows[j]) <==> ProviderFresh(m, rows[j]) {
        if j > 0 {
          assert rows[j] == rest[j - 1];
          OtherProviderKeeps(m, rows[j], row);
          assert ProviderFresh(m', rows[j]) <==> ProviderFresh(m, rows[j]);
        }
      }
    }
  }

  lemma {:induction false} ProviderPassIdle(m: Providers, rows: seq<ProviderRow>)
    ensures AllIdle(ProviderItems(m, Overwrite, false, rows))
            <==> forall j :: 0 <= j < |rows| ==> ProviderSettled(m, rows[j])
    ensures AllIdle(ProviderItems(m, Overwrite, false, rows)) ==> ProvidersAfter(m, Overwrite, false, rows) == m
    decreases |rows|
  {
    if rows != [] {
      var c := ProviderChange(m, Overwrite, rows[0]);
      ProviderNeverFails(m, Overwrite, rows[0]);
      hide ProviderChange;
      var m' := Put(m, rows[0].name, c, false);
      IdleCons(Report(rows[0].name, c), ProviderItems(m', Overwrite, false, rows[1..]));
      ProviderPassIdle(m', rows[1..]);
      assert forall j :: 0 < j < |rows| ==> rows[j] == rows[1..][j - 1];
    }
  }

  lemma {:induction false} ProviderNeverFails(m: Providers, mode: Mode, row: ProviderRow)
    ensures !ProviderChange(m, mode, row).outcome.Failed?
  {
  }

  // ---------------------------------------------------------------------------------------------
  // Knowledge bases
  // ---------------------------------------------------------------------------------------------

  ghost predicate BaseSettled(m: Bases, row: BaseRow) { row.id in m && NextBase(m[row.id], row) == m[row.id] }

  ghost predicate BaseFresh(m: Bases, row: BaseRow) { row.id in m || row.name != Some("") }

  function BasePut(m: Bases, row: BaseRow): Bases { Put(m, row.id, BaseChange(m, Overwrite, false, row), false) }

  lemma {:induction false} BaseIdle(m: Bases, row: BaseRow)
    ensures Idle(Report(row.id, BaseChange(m, Overwrite, false, row))) <==> BaseSettled(m, row)
    ensures BaseSettled(m, row) ==> BasePut(m, row) == m
  {
  }

  lemma {:induction false} BaseStepSettles(m: Bases, row: BaseRow)
    requires row.id != "" && !BaseChange(m, Overwrite, false, row).outcome.Failed?
    ensures BaseSettled(BasePut(m, row), row) <==> BaseFresh(m, row)
  {
    hide NameTaken;
    if row.id in m {
      SecretSettles(row.apiKey, m[row.id].apiKey);
      hide NextSecret, NewSecret, SecretOf;
      assert BasePut(m, row)[row.id] == NextBase(m[row.id], row);
    } else {
      SecretSettles(row.apiKey, None);
      hide NextSecret, NewSecret, SecretOf;
      assert BasePut(m, row)[row.id] == NewBase(row);
    }
  }

  lemma {:induction false} OtherBasesKeep(m: Bases, mode: Mode, dry: bool, id: string, rows: seq<BaseRow>)
    requires forall j :: 0 <= j < |rows| ==> rows[j].id != id
    ensures At(BasesAfter(m, mode, dry, rows), id) == At(m, id)
    decreases |rows|
  {
    hide BaseChange;
    if rows != [] {
      OtherBasesKeep(Put(m, rows[0].id, BaseChange(m, mode, dry, rows[0]), dry), mode, dry, id, rows[1..]);
    }
  }

  lemma {:induction false} SameBaseSettled(m: Bases, m': Bases, row: BaseRow)
    requires At(m, row.id) == At(m', row.id)
    ensures BaseSettled(m, row) <==> BaseSettled(m', row)
    ensures BaseFresh(m, row) <==> BaseFresh(m', row)
  {
  }

  lemma {:induction false} BasesSettle(m: Bases, rows: seq<BaseRow>)
    requires Distinct(BaseId, rows) && (forall j :: 0 <= j < |rows| ==> rows[j].id != "")
    requires NoneFailed(BaseItems(m, Overwrite, false, rows))
    ensures forall j :: 0 <= j < |rows| ==>
              (BaseSettled(BasesAfter(m, Overwrite, false, rows), rows[j]) <==> BaseFresh(m, rows[j]))
    decreases |rows|
  {
    hide BaseSettled, BaseFresh, BaseChange;
    if rows != [] {
      var row, rest, m' := rows[0], rows[1..], BasePut(m, rows[0]);
      IdleCons(Report(row.id, BaseChange(m, Overwrite, false, row)), BaseItems(m', Overwrite, false, rest));
      DistinctTail(BaseId, rows);
      BasesSettle(m', rest);
      BaseStepSettles(m, row);
      OtherBasesKeep(m', Overwrite, false, row.id, rest);
      var after := BasesAfter(m', Overwrite, false, rest);
      SameBaseSettled(m', after, row);
      forall j | 0 <= j < |rows| ensures BaseSettled(after, rows[j]) <==> BaseFresh(m, rows[j]) {
        if j > 0 {
          assert rows[j] == rest[j - 1];
          SameBaseSettled(m, m', rows[j]);
        }
      }
    }
  }

  lemma {:induction false} BasePassIdle(m: Bases, rows: seq<BaseRow>)
    ensures AllIdle(BaseItems(m, Overwrite, false, rows)) <==> forall j :: 0 <= j < |rows| ==> BaseSettled(m, rows[j])
    ensures AllIdle(BaseItems(m, Overwrite, false, rows)) ==> BasesAfter(m, Overwrite, false, rows) == m
    decreases |rows|
  {
    hide BaseSettled, BaseChange;
    if rows != [] {
      var c := BaseChange(m, Overwrite, false, rows[0]);
      BaseIdle(m, rows[0]);
      var m' := BasePut(m, rows[0]);
      IdleCons(Report(rows[0].id, c), BaseItems(m', Overwrite, false, rows[1..]));
      BasePassIdle(m', rows[1..]);
      assert forall j :: 0 < j < |rows| ==> rows[j] == rows[1..][j - 1];
    }
  }

  // ---------------------------------------------------------------------------------------------
  // External memory providers
  // ---------------------------------------------------------------------------------------------

  ghost predicate MemorySettled(m: Memories, row: MemoryRow, enabled: bool) {
    row.name in m && NextMemory(m[row.name], row, enabled) == m[row.name]
  }

  /** Every row is settled with the slot handed out from the front. */
  ghost predicate MemoriesSettled(m: Memories, rows: seq<MemoryRow>, free: bool)
    decreases |rows|
  {
    rows == []
    || (MemorySettled(m, rows[0], Grants(rows[0], free))
        && MemoriesSettled(m, rows[1..], free && !Grants(rows[0], free)))
  }

  lemma {:induction false} MemoryStepSettles(m: Memories, row: MemoryRow, enabled: bool)
    requires !MemoryChange(m, Overwrite, false, row, enabled).outcome.Failed?
    ensures MemorySettled(Put(m, row.name, MemoryChange(m, Overwrite, false, row, enabled), false), row, enabled)
  {
  }

  lemma {:induction false} OtherMemoriesKeep(m: Memories, mode: Mode, dry: bool, name: string,
                                             rows: seq<MemoryRow>, free: bool)
    requires forall j :: 0 <= j < |rows| ==> rows[j].name != name
    ensures At(MemoriesAfter(m, mode, dry, rows, free), name) == At(m, name)
    decreases |rows|
  {
    hide MemoryChange;
    if rows != [] {
      var c := MemoryChange(m, mode, dry, rows[0], Grants(rows[0], free));
      OtherMemoriesKeep(Put(m, rows[0].name, c, dry), mode, dry, name, rows[1..], StillFree(c, rows[0], free));
    }
  }

  lemma {:induction false} PassSettlesMemories(m: Memories, rows: seq<MemoryRow>, free: bool)
    requires Distinct(MemoryName, rows) && NoneFailed(MemoryItems(m, Overwrite, false, rows, free))
    ensures MemoriesSettled(MemoriesAfter(m, Overwrite, false, rows, free), rows, free)
    decreases |rows|
  {
    hide MemoryChange, Grants;
    if rows != [] {
      var row, rest := rows[0], rows[1..];
      var c := MemoryChange(m, Overwrite, false, row, Grants(row, free));
      var m', free' := Put(m, row.name, c, false), StillFree(c, row, free);
      IdleCons(Report(row.name, c), MemoryItems(m', Overwrite, false, rest, free'));
      DistinctTail(MemoryName, rows);
      PassSettlesMemories(m', rest, free');
      MemoryStepSettles(m, row, Grants(row, free));
      OtherMemoriesKeep(m', Overwrite, false, row.name, rest, free');
    }
  }

  lemma {:induction false} MemoryPassIdle(m: Memories, rows: seq<MemoryRow>, free: bool)
    requires MemoriesSettled(m, rows, free)
    ensures AllIdle(MemoryItems(m, Overwrite, false, rows, free)) && MemoriesAfter(m, Overwrite, false, rows, free) == m
    decreases |rows|
  {
    hide Grants, OtherEnabled, NextMemory, NewMemory, SecretOf;
    if rows != [] {
      var c := MemoryChange(m, Overwrite, false, rows[0], Grants(rows[0], free));
      assert c == Kept(Some(m[rows[0].name]), Skipped);
      MemoryPassIdle(m, rows[1..], free && !Grants(rows[0], free));
      hide MemoryChange;
      IdleCons(Report(rows[0].name, c), MemoryItems(m, Overwrite, false, rows[1..], free && !Grants(rows[0], free)));
    }
  }

  lemma {:induction false} SlotFreeStays(m: Memories, rows: seq<MemoryRow>, mode: Mode, dry: bool, free: bool)
    ensures SlotFree(MemoriesAfter(m, mode, dry, rows, free), rows) == SlotFree(m, rows)
  {
    hide MemoriesAfter, MemoryChange;
    var m', names := MemoriesAfter(m, mode, dry, rows, free), MemoryNames(rows);
    forall k | k !in names ensures At(m', k) == At(m, k) {
      assert forall j :: 0 <= j < |rows| ==> rows[j].name in names;
      OtherMemoriesKeep(m, mode, dry, k, rows, free);
    }
    if k :| k in m && k !in names && m[k].enabled { assert At(m', k) == At(m, k) && k in m'; }
    if k :| k in m' && k !in names && m'[k].enabled { assert At(m', k) == At(m, k) && k in m; }
  }

  lemma {:induction false} MemoriesTwice(m: Memories, rows: seq<MemoryRow>)
    requires Distinct(MemoryName, rows) && NoneFailed(MemoryItems(m, Overwrite, false, rows, SlotFree(m, rows)))
    ensures var after := MemoriesAfter(m, Overwrite, false, rows, SlotFree(m, rows));
            && MemoriesAfter(after, Overwrite, false, rows, SlotFree(after, rows)) == after
            && AllIdle(MemoryItems(after, Overwrite, false, rows, SlotFree(after, rows)))
  {
    hide MemoryChange, SlotFree, MemoriesSettled;
    var free := SlotFree(m, rows);
    SlotFreeStays(m, rows, Overwrite, false, free);
    PassSettlesMemories(m, rows, free);
    MemoryPassIdle(MemoriesAfter(m, Overwrite, false, rows, free), rows, free);
  }

  lemma {:induction false} GlobalTwice(current: Option<set<string>>, m: Memories, names: set<string>,
                                       wanted: Option<seq<string>>)
    ensures var c := GlobalChange(current, m, names, Overwrite, wanted);
            GlobalChange(c.entity, m, names, Overwrite, wanted).entity == c.entity
            && Idle(Report(GLOBAL_KEY, GlobalChange(c.entity, m, names, Overwrite, wanted)))
  {
  }

  // ---------------------------------------------------------------------------------------------
  // The whole bundle, twice
  // ---------------------------------------------------------------------------------------------

  /** Everything that makes an item of the report, put apart. */
  lemma {:induction false} ItemsApart(r: Registries, b: Bundle, x: Context)
    ensures var free := SlotFree(r.memories, b.memories);
            var c := GlobalStep(r, b, x, MemoriesAfter(r.memories, x.mode, x.dry, b.memories, free));
            && (AllIdle(ImportItems(r, b, x)) <==>
                  && AllIdle(ProviderItems(r.providers, x.mode, x.dry, b.providers))
                  && AllIdle(BaseItems(r.bases, x.mode, x.dry, b.bases))
                  && AllIdle(MapItems(SiteRule(x.mode), SiteName, r.sites, x.dry, b.sites))
                  && AllIdle(MemoryItems(r.memories, x.mode, x.dry, b.memories, free))
                  && Idle(Report(GLOBAL_KEY, c))
                  && AllIdle(MapItems(PluginRule(x.mode, PluginsBefore(x, r.plugins)), PluginKey,
                                      r.plugins, x.dry, b.plugins))
                  && AllIdle(MapItems(SkillRule(x.mode, SkillsBefore(x, r.skills)), SkillName,
                                      r.skills, x.dry, b.skills))
                  && AllIdle(MapItems(TargetRule(x.mode), TargetPlatform, r.targets, x.dry, b.targets)))
            && (NoneFailed(ImportItems(r, b, x)) ==>
                  && NoneFailed(BaseItems(r.bases, x.mode, x.dry, b.bases))
                  && NoneFailed(MemoryItems(r.memories, x.mode, x.dry, b.memories, free)))
  {
    hide AllIdle, NoneFailed, ProviderItems, BaseItems, MapItems, MemoryItems, MemoriesAfter, GlobalStep, Idle,
         SlotFree;
    var free := SlotFree(r.memories, b.memories);
    var a1 := ProviderItems(r.providers, x.mode, x.dry, b.providers);
    var a2 := a1 + BaseItems(r.bases, x.mode, x.dry, b.bases);
    var a3 := a2 + MapItems(SiteRule(x.mode), SiteName, r.sites, x.dry, b.sites);
    var a4 := a3 + MemoryItems(r.memories, x.mode, x.dry, b.memories, free);
    var g := Report(GLOBAL_KEY, GlobalStep(r, b, x, MemoriesAfter(r.memories, x.mode, x.dry, b.memories, free)));
    var a5 := a4 + [g];
    var a6 := a5 + MapItems(PluginRule(x.mode, PluginsBefore(x, r.plugins)), PluginKey, r.plugins, x.dry, b.plugins);
    var a7 := a6 + MapItems(SkillRule(x.mode, SkillsBefore(x, r.skills)), SkillName, r.skills, x.dry, b.skills);
    IdleAppend(a1, BaseItems(r.bases, x.mode, x.dry, b.bases));
    IdleAppend(a2, MapItems(SiteRule(x.mode), SiteName, r.sites, x.dry, b.sites));
    IdleAppend(a3, MemoryItems(r.memories, x.mode, x.dry, b.memories, free));
    IdleAppend(a4, [g]);
    OneIdle(g);
    IdleAppend(a5, MapItems(PluginRule(x.mode, PluginsBefore(x, r.plugins)), PluginKey, r.plugins, x.dry, b.plugins));
    IdleAppend(a6, MapItems(SkillRule(x.mode, SkillsBefore(x, r.skills)), SkillName, r.skills, x.dry, b.skills));
    IdleAppend(a7, MapItems(TargetRule(x.mode), TargetPlatform, r.targets, x.dry, b.targets));
  }

  lemma {:induction false} OneIdle(i: Item)
    ensures AllIdle([i]) <==> Idle(i)
  {
    assert [i][0] == i;
  }

  /** No row creates a provider with an empty type or an empty header map, or a base with an empty name. */
  ghost predicate Fresh(r: Registries, b: Bundle) {
    && (forall j :: 0 <= j < |b.providers| ==> ProviderFresh(r.providers, b.providers[j]))
    && (forall j :: 0 <= j < |b.bases| ==> BaseFresh(r.bases, b.bases[j]))
  }

  lemma {:induction false} MapSectionsTwice(r: Registries, b: Bundle, x: Context)
    requires ValidBundle(b) && x.mode.Overwrite? && !x.dry
    ensures var t := ImportAfter(r, b, x);
            && MapAfter(SiteRule(x.mode), SiteName, t.sites, false, b.sites) == t.sites
            && AllIdle(MapItems(SiteRule(x.mode), SiteName, t.sites, false, b.sites))
            && MapAfter(TargetRule(x.mode), TargetPlatform, t.targets, false, b.targets) == t.targets
            && AllIdle(MapItems(TargetRule(x.mode), TargetPlatform, t.targets, false, b.targets))
  {
    hide SettlesAtOnce, AllIdle, MapAfter, MapItems, ProvidersAfter, BasesAfter, MemoriesAfter, GlobalStep;
    SitesSettle();
    TargetsSettle();
    RowsTwice(SiteRule(Overwrite), SiteName, r.sites, b.sites);
    RowsTwice(TargetRule(Overwrite), TargetPlatform, r.targets, b.targets);
  }

  lemma {:induction false} FlagSectionsTwice(r: Registries, b: Bundle, x: Context)
    requires ValidBundle(b) && x.mode.Overwrite? && !x.dry
    ensures var t := ImportAfter(r, b, x);
            var plugins := PluginRule(x.mode, PluginsBefore(x, t.plugins));
            var skills := SkillRule(x.mode, SkillsBefore(x, t.skills));
            && MapAfter(plugins, PluginKey, t.plugins, false, b.plugins) == t.plugins
            && AllIdle(MapItems(plugins, PluginKey, t.plugins, false, b.plugins))
            && MapAfter(skills, SkillName, t.skills, false, b.skills) == t.skills
            && AllIdle(MapItems(skills, SkillName, t.skills, false, b.skills))
  {
    hide SettlesAtOnce, AllIdle, MapAfter, MapItems, ProvidersAfter, BasesAfter, MemoriesAfter, GlobalStep;
    var ps, ss := PluginsBefore(x, r.plugins), SkillsBefore(x, r.skills);
    PluginsSettle(ps);
    SkillsSettle(ss);
    RowsTwice(PluginRule(Overwrite, ps), PluginKey, r.plugins, b.plugins);
    RowsTwice(SkillRule(Overwrite, ss), SkillName, r.skills, b.skills);
    forall p ensures PluginRule(Overwrite, ps)(p, None).action.NoAction? {}
    forall p ensures SkillRule(Overwrite, ss)(p, None).action.NoAction? {}
    KeysStay(PluginRule(Overwrite, ps), PluginKey, r.plugins, b.plugins);
    KeysStay(SkillRule(Overwrite, ss), SkillName, r.skills, b.skills);
  }

  lemma {:induction false} RowSectionsTwice(r: Registries, b: Bundle, x: Context)
    requires ValidBundle(b) && x.mode.Overwrite? && !x.dry && NoneFailed(ImportItems(r, b, x))
    ensures var t := ImportAfter(r, b, x);
            var idle := AllIdle(ProviderItems(t.providers, x.mode, false, b.providers))
                        && AllIdle(BaseItems(t.bases, x.mode, false, b.bases));
            && (idle <==> Fresh(r, b))
            && (idle ==> ProvidersAfter(t.providers, x.mode, false, b.providers) == t.providers
                         && BasesAfter(t.bases, x.mode, false, b.bases) == t.bases)
  {
    ItemsApart(r, b, x);
    hide AllIdle, NoneFailed, ImportItems, MapAfter, MapItems, MemoriesAfter, MemoryItems, GlobalStep, ProviderSettled,
         BaseSettled, ProviderFresh, BaseFresh, ProvidersAfter, ProviderItems, BasesAfter, BaseItems;
    ProvidersSettle(r.providers, b.providers);
    BasesSettle(r.bases, b.bases);
    var t := ImportAfter(r, b, x);
    ProviderPassIdle(t.providers, b.providers);
    BasePassIdle(t.bases, b.bases);
  }

  lemma {:induction false} MemorySectionsTwice(r: Registries, b: Bundle, x: Context)
    requires ValidBundle(b) && x.mode.Overwrite? && !x.dry && NoneFailed(ImportItems(r, b, x))
    ensures var t := ImportAfter(r, b, x);
            var free := SlotFree(t.memories, b.memories);
            && MemoriesAfter(t.memories, x.mode, false, b.memories, free) == t.memories
            && AllIdle(MemoryItems(t.memories, x.mode, false, b.memories, free))
            && GlobalStep(t, b, x, t.memories).entity == t.global
            && Idle(Report(GLOBAL_KEY, GlobalStep(t, b, x, t.memories)))
  {
    ItemsApart(r, b, x);
    hide AllIdle, NoneFailed, ImportItems, MapAfter, MapItems, MemoriesAfter, MemoryItems, ProvidersAfter, BasesAfter,
         GlobalChange, SlotFree;
    MemoriesTwice(r.memories, b.memories);
    var m := MemoriesAfter(r.memories, x.mode, false, b.memories, SlotFree(r.memories, b.memories));
    GlobalTwice(r.global, m, MemoryNames(b.memories), b.global);
  }

  /**
   * After an OVERWRITE import without errors, importing the bundle again writes nothing, reports
   * no action for every item and changes no registry, in all four states of every secret, exactly
   * when no row created a record that the registry stores differently.
   */
  lemma {:induction false} ImportTwice(r: Registries, b: Bundle, x: Context)
    requires ValidBundle(b) && x.mode.Overwrite? && !x.dry && NoneFailed(ImportItems(r, b, x))
    ensures var t := ImportAfter(r, b, x);
            && (AllIdle(ImportItems(t, b, x)) <==> Fresh(r, b))
            && (AllIdle(ImportItems(t, b, x)) ==> ImportAfter(t, b, x) == t)
  {
    var t := ImportAfter(r, b, x);
    ItemsApart(t, b, x);
    RowSectionsTwice(r, b, x);
    MemorySectionsTwice(r, b, x);
    MapSectionsTwice(r, b, x);
    FlagSectionsTwice(r, b, x);
    hide AllIdle, NoneFailed, ImportItems, MapAfter, MapItems, MemoriesAfter, MemoryItems, ProvidersAfter,
         ProviderItems, BasesAfter, BaseItems, GlobalChange, SlotFree, Fresh, Idle;
  }
}
