/** Bundles as they are exported, and what importing them does, here and elsewhere. */
module ConfigExport {
  import opened Options
  import opened ConfigImport
  import opened ConfigImportLaws
  import opened ConfigImportSlots

  // ---------------------------------------------------------------------------------------------
  // Exports
  // ---------------------------------------------------------------------------------------------

  function SecretField(key: Option<string>, redact: bool): Field { if redact then Null else Text(Given(key, "")) }

  function ExportProvider(name: string, p: Provider, redact: bool): ProviderRow {
    ProviderRow(name, Some(p.kind), Some(p.baseUrl), Some(p.model), SecretField(p.apiKey, redact),
                if redact || p.headers == Some(map[]) then None else p.headers, p.vision, p.active)
  }

  function ExportBase(id: string, b: Base, redact: bool): BaseRow {
    BaseRow(id, Some(b.name), Some(b.description), b.kind, Some(b.baseUrl), Some(b.dataset),
            SecretField(b.apiKey, redact), b.enabled, b.topK, b.minScore)
  }

  function ExportSite(name: string, s: Site, redact: bool): SiteRow {
    SiteRow(name, s.transport, Some(s.url), s.command, s.args, if redact then None else Some(s.env), s.enabled)
  }

  /** What stands for the redaction of a nested payload. */
  type Blanking = string -> string

  function ExportMemory(name: string, e: Memory, redact: bool, blank: Blanking): MemoryRow {
    MemoryRow(name, e.kind, Some(e.baseUrl), SecretField(e.apiKey, redact), e.enabled,
              if redact then blank(e.extra) else e.extra)
  }

  function ExportPlugin(key: string, p: Plugin, redact: bool, blank: Blanking): PluginRow {
    PluginRow(key, Some(p.version), p.enabled, if redact then blank(p.config) else p.config,
              if redact then None else Some(p.secrets))
  }

  function ExportSkill(name: string, s: Skill): SkillRow { SkillRow(name, s.enabled, s.selectable) }

  function ExportTarget(platform: string, t: Target): TargetRow {
    TargetRow(platform, Some(t.receiveId), Some(t.idType), Some(t.thread), Some(t.display))
  }

  /** The rows list the records of a registry, each once, in any order. */
  ghost predicate ListsAll<R, E>(keyOf: R -> string, rows: seq<R>, m: map<string, E>, export_: (string, E) -> R) {
    && Distinct(keyOf, rows)
    && (forall i :: 0 <= i < |rows| ==> keyOf(rows[i]) in m && rows[i] == export_(keyOf(rows[i]), m[keyOf(rows[i])]))
    && forall k :: k in m ==> exists i :: 0 <= i < |rows| && keyOf(rows[i]) == k
  }

  ghost predicate IsExport(r: Registries, b: Bundle, redact: bool, blank: Blanking) {
    && ListsAll(ProviderName, b.providers, r.providers, (k, e) => ExportProvider(k, e, redact))
    && ListsAll(BaseId, b.bases, r.bases, (k, e) => ExportBase(k, e, redact))
    && ListsAll(SiteName, b.sites, r.sites, (k, e) => ExportSite(k, e, redact))
    && ListsAll(MemoryName, b.memories, r.memories, (k, e) => ExportMemory(k, e, redact, blank))
    && ListsAll(PluginKey, b.plugins, r.plugins, (k, e) => ExportPlugin(k, e, redact, blank))
    && ListsAll(SkillName, b.skills, r.skills, ExportSkill)
    && ListsAll(TargetPlatform, b.targets, r.targets, ExportTarget)
    && (b.global.Some? <==> r.global.Some?)
    && (b.global.Some? ==> forall n :: n in b.global.value <==> n in r.global.value)
  }

  /** No record of any registry has an empty natural key. */
  ghost predicate Keyed(r: Registries) {
    && "" !in r.providers && "" !in r.bases && "" !in r.sites && "" !in r.memories
    && "" !in r.plugins && "" !in r.skills && "" !in r.targets
  }

  /** What the registries themselves keep: keys are there, and at most one provider is active or enabled. */
  ghost predicate Sound(r: Registries) { Keyed(r) && OneActive(r.providers) && OneEnabled(r.memories) }

  /** Every provider has a type and every knowledge base a name. */
  ghost predicate Named(r: Registries) {
    (forall k :: k in r.providers ==> r.providers[k].kind != "") && forall k :: k in r.bases ==> r.bases[k].name != ""
  }

  // ---------------------------------------------------------------------------------------------
  // Records by themselves
  // ---------------------------------------------------------------------------------------------

  /** Exported rows with a provider type and a base name are never stored differently. */
  lemma {:induction false} ExportedIsFresh(m: Providers, n: Bases, name: string, p: Provider, b: Base, redact: bool)
    ensures p.kind != "" ==> ProviderFresh(m, ExportProvider(name, p, redact))
    ensures b.name != "" ==> BaseFresh(n, ExportBase(name, b, redact))
  {
  }

  /**
   * A provider exported with its secrets and imported where the active slot is free is the same
   * provider, exactly when it has a type and holds neither an empty key nor an empty header map.
   */
  lemma {:induction false} ProviderRoundTrip(name: string, p: Provider)
    ensures NewProvider(ExportProvider(name, p, false), false) == p
            <==> p.kind != "" && p.apiKey != Some("") && p.headers != Some(map[])
  {
  }

  lemma {:induction false} BaseRoundTrip(id: string, b: Base)
    requires id != ""
    ensures NewBase(ExportBase(id, b, false)) == b <==> b.name != "" && b.apiKey != Some("")
  {
  }

  /** A site exported with its environment is the same site wherever it is imported. */
  lemma {:induction false} SiteRoundTrip(name: string, s: Site, e: Option<Site>)
    ensures SiteChange(Overwrite, ExportSite(name, s, false), e).entity == Some(s)
  {
  }

  /** A provider created with an empty header map is written again by the second import. */
  lemma {:induction false} EmptyHeadersAreRewritten()
    ensures var row := ProviderRow("p", Some("openai"), None, None, Missing, Some(map[]), false, false);
            !ProviderSettled(ProviderPut(map[], row), row)
  {
  }

  // ---------------------------------------------------------------------------------------------
  // Whole bundles
  // ---------------------------------------------------------------------------------------------

  lemma {:induction false} ListedKeys<R, E>(keyOf: R -> string, rows: seq<R>, m: map<string, E>,
                                            export_: (string, E) -> R)
    requires ListsAll(keyOf, rows, m, export_)
    ensures WellKeyed(keyOf, rows) <==> "" !in m
  {
    if "" in m {
      var i :| 0 <= i < |rows| && keyOf(rows[i]) == "";
    }
  }

  /** Active providers and active rows are the same ones. */
  lemma {:induction false} ListedActive(m: Providers, rows: seq<ProviderRow>, redact: bool)
    requires ListsAll(ProviderName, rows, m, (k, e) => ExportProvider(k, e, redact))
    ensures OneActive(m) <==> forall i, j :: 0 <= i < j < |rows| ==> !(rows[i].active && rows[j].active)
  {
    forall i | 0 <= i < |rows| ensures rows[i].name in m && rows[i].active == m[rows[i].name].active {
      assert ProviderName(rows[i]) in m;
    }
    forall i, j | 0 <= i < j < |rows| ensures rows[i].name != rows[j].name {
      assert ProviderName(rows[i]) != ProviderName(rows[j]);
    }
    forall k | k in m ensures exists i :: 0 <= i < |rows| && rows[i].name == k {
      var i :| 0 <= i < |rows| && ProviderName(rows[i]) == k;
      assert rows[i].name == k;
    }
    hide ListsAll;
  }

  /**
   * An export, redacted or not, passes validation exactly when no natural key is empty and at most
   * one provider is active.
   */
  lemma {:induction false} ExportIsValid(r: Registries, b: Bundle, redact: bool, blank: Blanking)
    requires IsExport(r, b, redact, blank)
    ensures ValidBundle(b) <==> Keyed(r) && OneActive(r.providers)
  {
    hide ListsAll, WellKeyed, OneActive;
    ListedKeys(ProviderName, b.providers, r.providers, (k, e) => ExportProvider(k, e, redact));
    ListedKeys(BaseId, b.bases, r.bases, (k, e) => ExportBase(k, e, redact));
    ListedKeys(SiteName, b.sites, r.sites, (k, e) => ExportSite(k, e, redact));
    ListedKeys(MemoryName, b.memories, r.memories, (k, e) => ExportMemory(k, e, redact, blank));
    ListedKeys(PluginKey, b.plugins, r.plugins, (k, e) => ExportPlugin(k, e, redact, blank));
    ListedKeys(SkillName, b.skills, r.skills, ExportSkill);
    ListedKeys(TargetPlatform, b.targets, r.targets, ExportTarget);
    ListedActive(r.providers, b.providers, redact);
  }

  lemma {:induction false} ExportedNames(r: Registries, b: Bundle, redact: bool, blank: Blanking)
    requires IsExport(r, b, redact, blank)
    ensures forall i :: 0 <= i < |b.providers| ==>
              b.providers[i].name in r.providers && b.providers[i].headers != Some(map[])
              && b.providers[i].kind == Some(r.providers[b.providers[i].name].kind)
    ensures forall i :: 0 <= i < |b.bases| ==>
              b.bases[i].id in r.bases && b.bases[i].name == Some(r.bases[b.bases[i].id].name)
    ensures forall k :: k in r.providers ==> exists i :: 0 <= i < |b.providers| && b.providers[i].name == k
    ensures forall k :: k in r.bases ==> exists i :: 0 <= i < |b.bases| && b.bases[i].id == k
  {
    forall i | 0 <= i < |b.providers|
      ensures b.providers[i].name in r.providers && b.providers[i].headers != Some(map[])
              && b.providers[i].kind == Some(r.providers[b.providers[i].name].kind)
    {
      assert ProviderName(b.providers[i]) in r.providers;
    }
    forall i | 0 <= i < |b.bases|
      ensures b.bases[i].id in r.bases && b.bases[i].name == Some(r.bases[b.bases[i].id].name)
    {
      assert BaseId(b.bases[i]) in r.bases;
    }
    forall k | k in r.providers ensures exists i :: 0 <= i < |b.providers| && b.providers[i].name == k {
      var i :| 0 <= i < |b.providers| && ProviderName(b.providers[i]) == k;
    }
    forall k | k in r.bases ensures exists i :: 0 <= i < |b.bases| && b.bases[i].id == k {
      var i :| 0 <= i < |b.bases| && BaseId(b.bases[i]) == k;
    }
  }

  lemma {:induction false} FreshIfNamed(r: Registries, b: Bundle, redact: bool, blank: Blanking, t: Registries)
    requires IsExport(r, b, redact, blank) && Named(r)
    ensures Fresh(t, b)
  {
    ExportedNames(r, b, redact, blank);
    hide IsExport;
  }

  lemma {:induction false} NamedIfFresh(r: Registries, b: Bundle, redact: bool, blank: Blanking)
    requires IsExport(r, b, redact, blank)
    requires Fresh(Registries(map[], map[], map[], map[], None, map[], map[], map[]), b)
    ensures Named(r)
  {
    ExportedNames(r, b, redact, blank);
    hide IsExport;
    forall k | k in r.providers ensures r.providers[k].kind != "" {
      var i :| 0 <= i < |b.providers| && b.providers[i].name == k;
      assert ProviderFresh(map[], b.providers[i]);
    }
    forall k | k in r.bases ensures r.bases[k].name != "" {
      var i :| 0 <= i < |b.bases| && b.bases[i].id == k;
      assert BaseFresh(map[], b.bases[i]);
    }
  }

  /** It creates no record that any target would store differently exactly when types and names are there. */
  lemma {:induction false} ExportIsFresh(r: Registries, b: Bundle, redact: bool, blank: Blanking)
    requires IsExport(r, b, redact, blank)
    ensures (forall t: Registries :: Fresh(t, b)) <==> Named(r)
  {
    hide IsExport, Fresh, Named;
    if Named(r) {
      forall t: Registries ensures Fresh(t, b) { FreshIfNamed(r, b, redact, blank, t); }
    } else if Fresh(Registries(map[], map[], map[], map[], None, map[], map[], map[]), b) {
      NamedIfFresh(r, b, redact, blank);
    }
  }

  /**
   * So an export, redacted or not, that was imported anywhere in OVERWRITE mode without an error is
   * imported again with no action for any item and no change to any registry.
   */
  lemma {:induction false} ExportImportedTwice(r: Registries, b: Bundle, redact: bool,
                                               blank: Blanking, t: Registries, x: Context)
    requires IsExport(r, b, redact, blank) && Sound(r) && Named(r)
    requires x.mode.Overwrite? && !x.dry && NoneFailed(ImportItems(t, b, x))
    ensures var after := ImportAfter(t, b, x);
            AllIdle(ImportItems(after, b, x)) && ImportAfter(after, b, x) == after
  {
    hide IsExport, Fresh, ValidBundle;
    ExportIsValid(r, b, redact, blank);
    ExportIsFresh(r, b, redact, blank);
    ImportTwice(t, b, x);
  }

  // ---------------------------------------------------------------------------------------------
  // Importing an export where it comes from
  // ---------------------------------------------------------------------------------------------

  lemma {:induction false} OwnProviders(r: Registries, b: Bundle, blank: Blanking)
    requires IsExport(r, b, false, blank)
    ensures AllIdle(ProviderItems(r.providers, Overwrite, false, b.providers))
            && ProvidersAfter(r.providers, Overwrite, false, b.providers) == r.providers
  {
    forall i | 0 <= i < |b.providers| ensures ProviderSettled(r.providers, b.providers[i]) {
      var k := ProviderName(b.providers[i]);
      assert NextProvider(r.providers[k], ExportProvider(k, r.providers[k], false), ActiveTaken(r.providers, k))
             == r.providers[k];
    }
    ProviderPassIdle(r.providers, b.providers);
  }

  lemma {:induction false} OwnBases(r: Registries, b: Bundle, blank: Blanking)
    requires IsExport(r, b, false, blank)
    ensures AllIdle(BaseItems(r.bases, Overwrite, false, b.bases))
            && BasesAfter(r.bases, Overwrite, false, b.bases) == r.bases
  {
    forall i | 0 <= i < |b.bases| ensures BaseSettled(r.bases, b.bases[i]) {
      var k := BaseId(b.bases[i]);
      assert NextBase(r.bases[k], ExportBase(k, r.bases[k], false)) == r.bases[k];
    }
    BasePassIdle(r.bases, b.bases);
  }

  /**
   * The providers from some row on, and whether the slot can still be granted: the enabled one is
   * still to come, or the slot is used.
   */
  lemma {:induction false} OwnMemoriesFrom(m: Memories, rows: seq<MemoryRow>, free: bool)
    requires Distinct(MemoryName, rows) && OneEnabled(m)
    requires forall i :: 0 <= i < |rows| ==>
               rows[i].name in m && rows[i] == ExportMemory(rows[i].name, m[rows[i].name], false, s => s)
    requires free || forall i :: 0 <= i < |rows| ==> !rows[i].enabled
    ensures AllIdle(MemoryItems(m, Overwrite, false, rows, free)) && MemoriesAfter(m, Overwrite, false, rows, free) == m
    decreases |rows|
  {
    if rows != [] {
      var k := rows[0].name;
      var c := MemoryChange(m, Overwrite, false, rows[0], Grants(rows[0], free));
      assert NextMemory(m[k], rows[0], rows[0].enabled) == m[k];
      assert c == Kept(Some(m[k]), Skipped);
      DistinctTail(MemoryName, rows);
      var free' := StillFree(c, rows[0], free);
      if !free' {
        forall i | 0 <= i < |rows| - 1 ensures !rows[1..][i].enabled {
          assert MemoryName(rows[i + 1]) != MemoryName(rows[0]);
        }
      }
      OwnMemoriesFrom(m, rows[1..], free');
      IdleCons(Report(k, c), MemoryItems(m, Overwrite, false, rows[1..], free'));
    }
  }

  lemma {:induction false} OwnMemories(r: Registries, b: Bundle, blank: Blanking)
    requires IsExport(r, b, false, blank) && OneEnabled(r.memories)
    ensures SlotFree(r.memories, b.memories)
    ensures AllIdle(MemoryItems(r.memories, Overwrite, false, b.memories, true))
            && MemoriesAfter(r.memories, Overwrite, false, b.memories, true) == r.memories
  {
    forall i | 0 <= i < |b.memories|
      ensures b.memories[i].name in r.memories
              && b.memories[i] == ExportMemory(b.memories[i].name, r.memories[b.memories[i].name], false, s => s)
    {
      assert MemoryName(b.memories[i]) in r.memories;
    }
    forall k | k in r.memories ensures k in MemoryNames(b.memories) {
      var i :| 0 <= i < |b.memories| && MemoryName(b.memories[i]) == k;
      assert b.memories[i].name in MemoryNames(b.memories);
    }
    OwnMemoriesFrom(r.memories, b.memories, true);
  }

  lemma {:induction false} OwnRows<R(!new), E(!new)>(rule: Rule<R, E>, keyOf: R -> string, m: map<string, E>,
                                                     rows: seq<R>, export_: (string, E) -> R)
    requires ListsAll(keyOf, rows, m, export_)
    requires forall k :: k in m ==> Stays(rule, export_(k, m[k]), Some(m[k]))
    ensures MapAfter(rule, keyOf, m, false, rows) == m && AllIdle(MapItems(rule, keyOf, m, false, rows))
  {
    forall j | 0 <= j < |rows| ensures Stays(rule, rows[j], At(m, keyOf(rows[j]))) {
      assert keyOf(rows[j]) in m;
    }
    SettledPass(rule, keyOf, m, rows);
  }

  /** The names of the global set that are enabled are there. */
  ghost predicate NamesResolve(r: Registries) {
    r.global.Some? ==> forall n :: n in r.global.value ==> n in r.memories || n == BUILTIN
  }

  lemma {:induction false} OwnGlobal(r: Registries, b: Bundle, blank: Blanking)
    requires IsExport(r, b, false, blank) && SlotFree(r.memories, b.memories)
    ensures var c := GlobalChange(r.global, r.memories, MemoryNames(b.memories), Overwrite, b.global);
            Idle(Report(GLOBAL_KEY, c)) <==> NamesResolve(r)
  {
    hide ListsAll;
    if r.global.Some? {
      var wanted := b.global.value;
      assert forall n :: n in r.global.value <==> exists i :: 0 <= i < |wanted| && wanted[i] == n;
      var c := GlobalChange(r.global, r.memories, MemoryNames(b.memories), Overwrite, b.global);
      if NamesResolve(r) {
        assert Resolved(r.memories.Keys, wanted) == r.global.value;
      } else {
        var n :| n in r.global.value && n !in r.memories && n != BUILTIN;
        assert n !in Resolved(r.memories.Keys, wanted);
      }
    }
  }

  lemma {:induction false} OwnStays(pre: set<string>)
    ensures forall k, e :: Stays(SiteRule(Overwrite), ExportSite(k, e, false), Some(e))
    ensures forall k, e, blank: Blanking :: Stays(PluginRule(Overwrite, pre), ExportPlugin(k, e, false, blank), Some(e))
    ensures forall k, e :: Stays(SkillRule(Overwrite, pre), ExportSkill(k, e), Some(e))
    ensures forall k, e :: Stays(TargetRule(Overwrite), ExportTarget(k, e), Some(e))
  {
  }

  /** The sections whose rows do not meet. */
  lemma {:induction false} OwnSections(r: Registries, b: Bundle, blank: Blanking, pre: set<string>, pre': set<string>)
    requires IsExport(r, b, false, blank)
    ensures var sites, targets := SiteRule(Overwrite), TargetRule(Overwrite);
            var plugins, skills := PluginRule(Overwrite, pre), SkillRule(Overwrite, pre');
            && MapAfter(sites, SiteName, r.sites, false, b.sites) == r.sites
            && AllIdle(MapItems(sites, SiteName, r.sites, false, b.sites))
            && MapAfter(plugins, PluginKey, r.plugins, false, b.plugins) == r.plugins
            && AllIdle(MapItems(plugins, PluginKey, r.plugins, false, b.plugins))
            && MapAfter(skills, SkillName, r.skills, false, b.skills) == r.skills
            && AllIdle(MapItems(skills, SkillName, r.skills, false, b.skills))
            && MapAfter(targets, TargetPlatform, r.targets, false, b.targets) == r.targets
            && AllIdle(MapItems(targets, TargetPlatform, r.targets, false, b.targets))
  {
    hide ListsAll, Stays, MapAfter, MapItems, AllIdle;
    OwnStays(pre);
    OwnStays(pre');
    OwnRows(SiteRule(Overwrite), SiteName, r.sites, b.sites, (k, e) => ExportSite(k, e, false));
    OwnRows(PluginRule(Overwrite, pre), PluginKey, r.plugins, b.plugins, (k, e) => ExportPlugin(k, e, false, blank));
    OwnRows(SkillRule(Overwrite, pre'), SkillName, r.skills, b.skills, ExportSkill);
    OwnRows(TargetRule(Overwrite), TargetPlatform, r.targets, b.targets, ExportTarget);
  }

  /**
   * Importing an unredacted export where it comes from, in OVERWRITE mode, writes nothing and reports
   * no action for any item, exactly when every enabled name of the global set still resolves.
   */
  lemma {:induction false} OwnExportIsIdle(r: Registries, b: Bundle, blank: Blanking, x: Context)
    requires IsExport(r, b, false, blank) && Sound(r) && x.mode.Overwrite? && !x.dry
    ensures AllIdle(ImportItems(r, b, x)) <==> NamesResolve(r)
    ensures NamesResolve(r) ==> ImportAfter(r, b, x) == r
  {
    ItemsApart(r, b, x);
    hide AllIdle, NoneFailed, ProvidersAfter, ProviderItems, BasesAfter, BaseItems, MemoriesAfter, MemoryItems,
         MapAfter, MapItems, SlotFree, IsExport, OneActive, OneEnabled;
    OwnProviders(r, b, blank);
    OwnBases(r, b, blank);
    OwnMemories(r, b, blank);
    OwnGlobal(r, b, blank);
    OwnSections(r, b, blank, PluginsBefore(x, r.plugins), SkillsBefore(x, r.skills));
    var c := GlobalStep(r, b, x, r.memories);
    assert NamesResolve(r) ==> c.entity == r.global;
    hide GlobalChange, NamesResolve;
  }
}
