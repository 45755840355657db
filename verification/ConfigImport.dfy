/** Importing a bundle: every section is a map from keys to records, every row a step. */
module ConfigImport {
  import opened Options
  import opened Sequences

  // The registries behave as the SQLite ones do.

  datatype Mode = Merge | Overwrite

  datatype Action = NoAction | Created | Updated

  datatype Outcome = Skipped | WasCreated | WasUpdated | Degraded | Failed

  datatype Item = Item(key: string, action: Action, outcome: Outcome)

  /** The state of one record after its row, and what is reported. */
  datatype Change<E> = Change(entity: Option<E>, action: Action, outcome: Outcome)

  /** `_mark_written`: any reason recorded so far means degraded. */
  function Written(action: Action, degraded: bool): Outcome {
    if degraded then Degraded else if action.Created? then WasCreated else WasUpdated
  }

  function Kept<E>(e: Option<E>, outcome: Outcome): Change<E> { Change(e, NoAction, outcome) }

  function Or(o: Option<string>, default: string): string { if o.Some? && o.value != "" then o.value else default }

  function Given<T>(o: Option<T>, current: T): T { if o.Some? then o.value else current }

  // ---------------------------------------------------------------------------------------------
  // Secrets
  // ---------------------------------------------------------------------------------------------

  /** A payload field: not there, null, or a string. */
  datatype Field = Missing | Null | Text(value: string)

  datatype Secret = Unchanged | Redacted | Cleared | Set(value: string)

  function SecretOf(f: Field): Secret {
    match f
    case Missing => Unchanged
    case Null => Redacted
    case Text(v) => if v == "" then Cleared else Set(v)
  }

  /** The secret of a record that is created. */
  function NewSecret(s: Secret): Option<string> { if s.Set? then Some(s.value) else None }

  /** The secret of a record that is there, once the requested state is realised. */
  function NextSecret(s: Secret, current: Option<string>): Option<string> {
    match s
    case Cleared => if current == None || current == Some("") then current else None
    case Set(v) => Some(v)
    case _ => current
  }

  // ---------------------------------------------------------------------------------------------
  // Providers
  // ---------------------------------------------------------------------------------------------

  datatype Provider = Provider(kind: string, baseUrl: string, model: string, apiKey: Option<string>,
                               headers: Option<map<string, string>>, vision: bool, active: bool)

  datatype ProviderRow = ProviderRow(name: string, kind: Option<string>, baseUrl: Option<string>, model: Option<string>,
                                     apiKey: Field, headers: Option<map<string, string>>, vision: bool, active: bool)

  type Providers = map<string, Provider>

  /** Another provider holds the active slot. */
  predicate ActiveTaken(m: Providers, name: string) { exists k :: k in m && k != name && m[k].active }

  function NewProvider(row: ProviderRow, taken: bool): Provider {
    Provider(Or(row.kind, "openai"), Given(row.baseUrl, ""), Given(row.model, ""), NewSecret(SecretOf(row.apiKey)),
             if row.headers == Some(map[]) then None else row.headers, row.vision, row.active && !taken)
  }

  function NextProvider(p: Provider, row: ProviderRow, taken: bool): Provider {
    Provider(Given(row.kind, p.kind), Given(row.baseUrl, p.baseUrl), Given(row.model, p.model),
             NextSecret(SecretOf(row.apiKey), p.apiKey), if row.headers.Some? then row.headers else p.headers,
             row.vision, p.active || (row.active && !taken))
  }

  function ProviderChange(m: Providers, mode: Mode, row: ProviderRow): Change<Provider> {
    var taken := ActiveTaken(m, row.name);
    var degraded := (row.active && taken) || SecretOf(row.apiKey).Redacted?;
    if row.name !in m then Change(Some(NewProvider(row, taken)), Created, Written(Created, degraded))
    else if mode.Merge? then Kept(Some(m[row.name]), Skipped)
    else
      var p := NextProvider(m[row.name], row, taken);
      if p == m[row.name] then Kept(Some(p), Skipped) else Change(Some(p), Updated, Written(Updated, degraded))
  }

  // ---------------------------------------------------------------------------------------------
  // Knowledge bases
  // ---------------------------------------------------------------------------------------------

  datatype Base = Base(name: string, description: string, kind: nat, baseUrl: string, dataset: string,
                       apiKey: Option<string>, enabled: bool, topK: Option<int>, minScore: Option<real>)

  datatype BaseRow = BaseRow(id: string, name: Option<string>, description: Option<string>, kind: nat,
                             baseUrl: Option<string>, dataset: Option<string>, apiKey: Field, enabled: bool,
                             topK: Option<int>, minScore: Option<real>)

  type Bases = map<string, Base>

  /** Names are unique in the table. */
  predicate NameTaken(m: Bases, id: string, name: string) { exists k :: k in m && k != id && m[k].name == name }

  function NewBase(row: BaseRow): Base {
    Base(Or(row.name, row.id), Given(row.description, ""), row.kind, Given(row.baseUrl, ""), Given(row.dataset, ""),
         NewSecret(SecretOf(row.apiKey)), row.enabled, row.topK, row.minScore)
  }

  function NextBase(b: Base, row: BaseRow): Base {
    Base(Given(row.name, b.name), Given(row.description, b.description), row.kind, Given(row.baseUrl, b.baseUrl),
         Given(row.dataset, b.dataset), NextSecret(SecretOf(row.apiKey), b.apiKey), row.enabled, row.topK, row.minScore)
  }

  function BaseChange(m: Bases, mode: Mode, dry: bool, row: BaseRow): Change<Base> {
    var degraded := SecretOf(row.apiKey).Redacted?;
    if row.id !in m then
      var b := NewBase(row);
      if !dry && NameTaken(m, row.id, b.name) then Kept(None, Failed)
      else Change(Some(b), Created, Written(Created, degraded))
    else if mode.Merge? then Kept(Some(m[row.id]), Skipped)
    else
      var b := NextBase(m[row.id], row);
      if b == m[row.id] then Kept(Some(b), Skipped)
      else if !dry && b.name != m[row.id].name && NameTaken(m, row.id, b.name) then Kept(Some(m[row.id]), Failed)
      else Change(Some(b), Updated, Written(Updated, degraded))
  }

  // ---------------------------------------------------------------------------------------------
  // External memory providers and the global set
  // ---------------------------------------------------------------------------------------------

  datatype Memory = Memory(kind: nat, baseUrl: string, apiKey: Option<string>, enabled: bool, extra: string)

  datatype MemoryRow = MemoryRow(name: string, kind: nat, baseUrl: Option<string>, apiKey: Field,
                                 enabled: bool, extra: string)

  type Memories = map<string, Memory>

  predicate OtherEnabled(m: Memories, name: string) { exists k :: k in m && k != name && m[k].enabled }

  function NewMemory(row: MemoryRow, enabled: bool): Memory {
    Memory(row.kind, Given(row.baseUrl, ""), NewSecret(SecretOf(row.apiKey)), enabled, row.extra)
  }

  function NextMemory(e: Memory, row: MemoryRow, enabled: bool): Memory {
    Memory(row.kind, Given(row.baseUrl, e.baseUrl), NextSecret(SecretOf(row.apiKey), e.apiKey), enabled, row.extra)
  }

  /**
   * The registry refuses a second enabled provider, and its update takes no provider type, so a row
   * that changes the type always fails.
   */
  function MemoryChange(m: Memories, mode: Mode, dry: bool, row: MemoryRow, enabled: bool): Change<Memory> {
    var degraded := SecretOf(row.apiKey).Redacted? || (row.enabled && !enabled);
    if row.name !in m then
      if !dry && enabled && OtherEnabled(m, row.name) then Kept(None, Failed)
      else Change(Some(NewMemory(row, enabled)), Created, Written(Created, degraded))
    else
      var was := m[row.name];
      if mode.Merge? then Kept(Some(was), Skipped)
      else
        var e := NextMemory(was, row, enabled);
        if e == was then Kept(Some(was), Skipped)
        else if !dry && (e.kind != was.kind || (enabled && !was.enabled && OtherEnabled(m, row.name))) then
          Kept(Some(was), Failed)
        else Change(Some(e), Updated, Written(Updated, degraded))
  }

  function MemoryNames(rows: seq<MemoryRow>): set<string> { set i | 0 <= i < |rows| :: rows[i].name }

  /** An enabled provider that the bundle does not name owns the single slot. */
  predicate SlotOwned(m: Memories, names: set<string>) { exists k :: k in m && k !in names && m[k].enabled }

  /** The name that always resolves. */
  const BUILTIN := "builtin"

  /** The set of enabled names; `wanted` is None where the source never configured it. */
  function GlobalChange(current: Option<set<string>>, m: Memories, names: set<string>, mode: Mode,
                        wanted: Option<seq<string>>)
    : Change<set<string>>
  {
    if wanted.None? then Kept(current, Skipped)
    else if SlotOwned(m, names) then Kept(current, Degraded)
    else
      var desired := set i | 0 <= i < |wanted.value| && (wanted.value[i] in m || wanted.value[i] == BUILTIN) ::
                       wanted.value[i];
      var dropped := exists i :: 0 <= i < |wanted.value| && wanted.value[i] !in m && wanted.value[i] != BUILTIN;
      if current == Some(desired) || (current.Some? && mode.Merge?) then Kept(current, Skipped)
      else Change(Some(desired), Updated, Written(Updated, dropped))
  }

  // ---------------------------------------------------------------------------------------------
  // Sections whose rows do not meet: MCP sites, plugins, skills, home targets
  // ---------------------------------------------------------------------------------------------

  datatype Site = Site(transport: nat, url: string, command: Option<string>, args: seq<string>,
                       env: map<string, string>, enabled: bool)

  datatype SiteRow = SiteRow(name: string, transport: nat, url: Option<string>, command: Option<string>,
                             args: seq<string>, env: Option<map<string, string>>, enabled: bool)

  function SiteChange(mode: Mode, row: SiteRow, e: Option<Site>): Change<Site> {
    var site := Site(row.transport, Given(row.url, ""), row.command, row.args,
                     if row.env.Some? then row.env.value else if e.Some? then e.value.env else map[], row.enabled);
    if e.None? then Change(Some(site), Created, Written(Created, row.env.None?))
    else if mode.Merge? || e == Some(site) then Kept(e, Skipped)
    else Change(Some(site), Updated, Written(Updated, row.env.None?))
  }

  datatype Plugin = Plugin(version: string, enabled: bool, config: string, secrets: map<string, string>)

  datatype PluginRow = PluginRow(key: string, version: Option<string>, enabled: bool, config: string,
                                 secrets: Option<map<string, string>>)

  function PluginChange(mode: Mode, preExisting: set<string>, row: PluginRow, e: Option<Plugin>): Change<Plugin> {
    if e.None? then Kept(e, Degraded)
    else if row.version.Some? && row.version.value != "" && e.value.version != row.version.value then Kept(e, Degraded)
    else if mode.Merge? && row.key in preExisting then Kept(e, Skipped)
    else
      var next := Plugin(e.value.version, row.enabled, row.config, e.value.secrets + Given(row.secrets, map[]));
      if next == e.value then Kept(e, Skipped) else Change(Some(next), Updated, Written(Updated, row.secrets.None?))
  }

  datatype Skill = Skill(enabled: bool, selectable: bool)

  datatype SkillRow = SkillRow(name: string, enabled: bool, selectable: bool)

  function SkillChange(mode: Mode, preExisting: set<string>, row: SkillRow, e: Option<Skill>): Change<Skill> {
    if e.None? then Kept(e, Degraded)
    else if mode.Merge? && row.name in preExisting then Kept(e, Skipped)
    else
      var next := Skill(row.enabled, row.selectable);
      if next == e.value then Kept(e, Skipped) else Change(Some(next), Updated, WasUpdated)
  }

  datatype Target = Target(receiveId: string, idType: string, thread: string, display: string)

  datatype TargetRow = TargetRow(platform: string, receiveId: Option<string>, idType: Option<string>,
                                 thread: Option<string>, display: Option<string>)

  function TargetChange(mode: Mode, row: TargetRow, e: Option<Target>): Change<Target> {
    var next := Target(Given(row.receiveId, ""), Given(row.idType, ""), Given(row.thread, ""), Given(row.display, ""));
    if e.None? then Change(Some(next), Created, WasCreated)
    else if mode.Merge? || next == e.value then Kept(e, Skipped)
    else Change(Some(next), Updated, WasUpdated)
  }

  // ---------------------------------------------------------------------------------------------
  // Whole sections
  // ---------------------------------------------------------------------------------------------

  function Put<E>(m: map<string, E>, key: string, c: Change<E>, dry: bool): map<string, E> {
    if !dry && !c.action.NoAction? && c.entity.Some? then m[key := c.entity.value] else m
  }

  function At<E>(m: map<string, E>, key: string): Option<E> { if key in m then Some(m[key]) else None }

  function Report<E>(key: string, c: Change<E>): Item { Item(key, c.action, c.outcome) }

  function ProvidersAfter(m: Providers, mode: Mode, dry: bool, rows: seq<ProviderRow>): Providers
    decreases |rows|
  {
    if rows == [] then m
    else ProvidersAfter(Put(m, rows[0].name, ProviderChange(m, mode, rows[0]), dry), mode, dry, rows[1..])
  }

  function ProviderItems(m: Providers, mode: Mode, dry: bool, rows: seq<ProviderRow>): seq<Item>
    decreases |rows|
  {
    if rows == [] then []
    else
      var c := ProviderChange(m, mode, rows[0]);
      [Report(rows[0].name, c)] + ProviderItems(Put(m, rows[0].name, c, dry), mode, dry, rows[1..])
  }

  function BasesAfter(m: Bases, mode: Mode, dry: bool, rows: seq<BaseRow>): Bases
    decreases |rows|
  {
    if rows == [] then m
    else BasesAfter(Put(m, rows[0].id, BaseChange(m, mode, dry, rows[0]), dry), mode, dry, rows[1..])
  }

  function BaseItems(m: Bases, mode: Mode, dry: bool, rows: seq<BaseRow>): seq<Item>
    decreases |rows|
  {
    if rows == [] then []
    else
      var c := BaseChange(m, mode, dry, rows[0]);
      [Report(rows[0].id, c)] + BaseItems(Put(m, rows[0].id, c, dry), mode, dry, rows[1..])
  }

  /** Whether a row is given the slot: it wants it, and it is free. */
  function Grants(row: MemoryRow, free: bool): bool { row.enabled && free }

  function MemoriesAfter(m: Memories, mode: Mode, dry: bool, rows: seq<MemoryRow>, free: bool): Memories
    decreases |rows|
  {
    if rows == [] then m
    else
      var c := MemoryChange(m, mode, dry, rows[0], Grants(rows[0], free));
      MemoriesAfter(Put(m, rows[0].name, c, dry), mode, dry, rows[1..], StillFree(c, rows[0], free))
  }

  function MemoryItems(m: Memories, mode: Mode, dry: bool, rows: seq<MemoryRow>, free: bool): seq<Item>
    decreases |rows|
  {
    if rows == [] then []
    else
      var c := MemoryChange(m, mode, dry, rows[0], Grants(rows[0], free));
      [Report(rows[0].name, c)]
      + MemoryItems(Put(m, rows[0].name, c, dry), mode, dry, rows[1..], StillFree(c, rows[0], free))
  }

  /** The slot is granted once; a row that fails does not use it up. */
  function StillFree(c: Change<Memory>, row: MemoryRow, free: bool): bool {
    free && (c.outcome.Failed? || !Grants(row, free))
  }

  type Rule<!R, !E> = (R, Option<E>) -> Change<E>

  function MapAfter<R, E>(rule: Rule<R, E>, keyOf: R -> string, m: map<string, E>, dry: bool, rows: seq<R>)
    : map<string, E>
    decreases |rows|
  {
    if rows == [] then m
    else
      var key := keyOf(rows[0]);
      MapAfter(rule, keyOf, Put(m, key, rule(rows[0], At(m, key)), dry), dry, rows[1..])
  }

  function MapItems<R, E>(rule: Rule<R, E>, keyOf: R -> string, m: map<string, E>, dry: bool, rows: seq<R>): seq<Item>
    decreases |rows|
  {
    if rows == [] then []
    else
      var key := keyOf(rows[0]);
      var c := rule(rows[0], At(m, key));
      [Report(key, c)] + MapItems(rule, keyOf, Put(m, key, c, dry), dry, rows[1..])
  }

  function SiteRule(mode: Mode): Rule<SiteRow, Site> { (r, e) => SiteChange(mode, r, e) }
  function PluginRule(mode: Mode, pre: set<string>): Rule<PluginRow, Plugin> { (r, e) => PluginChange(mode, pre, r, e) }
  function SkillRule(mode: Mode, pre: set<string>): Rule<SkillRow, Skill> { (r, e) => SkillChange(mode, pre, r, e) }
  function TargetRule(mode: Mode): Rule<TargetRow, Target> { (r, e) => TargetChange(mode, r, e) }

  function SiteName(r: SiteRow): string { r.name }
  function PluginKey(r: PluginRow): string { r.key }
  function SkillName(r: SkillRow): string { r.name }
  function TargetPlatform(r: TargetRow): string { r.platform }

  // ---------------------------------------------------------------------------------------------
  // The whole bundle
  // ---------------------------------------------------------------------------------------------

  datatype Bundle = Bundle(
    providers: seq<ProviderRow>, bases: seq<BaseRow>, sites: seq<SiteRow>, memories: seq<MemoryRow>,
    global: Option<seq<string>>, plugins: seq<PluginRow>, skills: seq<SkillRow>, targets: seq<TargetRow>)

  datatype Registries = Registries(
    providers: Providers, bases: Bases, sites: map<string, Site>, memories: Memories, global: Option<set<string>>,
    plugins: map<string, Plugin>, skills: map<string, Skill>, targets: map<string, Target>)

  /** The switches of a call, with the natural keys the target had before where the caller says so. */
  datatype Context = Context(mode: Mode, dry: bool, plugins: Option<set<string>>, skills: Option<set<string>>)

  function PluginsBefore(x: Context, m: map<string, Plugin>): set<string> { Given(x.plugins, m.Keys) }
  function SkillsBefore(x: Context, m: map<string, Skill>): set<string> { Given(x.skills, m.Keys) }

  function SlotFree(m: Memories, rows: seq<MemoryRow>): bool { !SlotOwned(m, MemoryNames(rows)) }

  function GlobalStep(r: Registries, b: Bundle, x: Context, m: Memories): Change<set<string>> {
    GlobalChange(r.global, m, MemoryNames(b.memories), x.mode, b.global)
  }

  function ImportAfter(r: Registries, b: Bundle, x: Context): Registries {
    var memories := MemoriesAfter(r.memories, x.mode, x.dry, b.memories, SlotFree(r.memories, b.memories));
    var global := GlobalStep(r, b, x, memories);
    Registries(
      ProvidersAfter(r.providers, x.mode, x.dry, b.providers),
      BasesAfter(r.bases, x.mode, x.dry, b.bases),
      MapAfter(SiteRule(x.mode), SiteName, r.sites, x.dry, b.sites),
      memories,
      if x.dry then r.global else global.entity,
      MapAfter(PluginRule(x.mode, PluginsBefore(x, r.plugins)), PluginKey, r.plugins, x.dry, b.plugins),
      MapAfter(SkillRule(x.mode, SkillsBefore(x, r.skills)), SkillName, r.skills, x.dry, b.skills),
      MapAfter(TargetRule(x.mode), TargetPlatform, r.targets, x.dry, b.targets))
  }

  const GLOBAL_KEY := "external_memory_global_config"

  function ImportItems(r: Registries, b: Bundle, x: Context): seq<Item> {
    var free := SlotFree(r.memories, b.memories);
    var memories := MemoriesAfter(r.memories, x.mode, x.dry, b.memories, free);
    ProviderItems(r.providers, x.mode, x.dry, b.providers)
    + BaseItems(r.bases, x.mode, x.dry, b.bases)
    + MapItems(SiteRule(x.mode), SiteName, r.sites, x.dry, b.sites)
    + MemoryItems(r.memories, x.mode, x.dry, b.memories, free)
    + [Report(GLOBAL_KEY, GlobalStep(r, b, x, memories))]
    + MapItems(PluginRule(x.mode, PluginsBefore(x, r.plugins)), PluginKey, r.plugins, x.dry, b.plugins)
    + MapItems(SkillRule(x.mode, SkillsBefore(x, r.skills)), SkillName, r.skills, x.dry, b.skills)
    + MapItems(TargetRule(x.mode), TargetPlatform, r.targets, x.dry, b.targets)
  }

  ghost predicate Distinct<R>(keyOf: R -> string, rows: seq<R>) {
    forall i, j :: 0 <= i < j < |rows| ==> keyOf(rows[i]) != keyOf(rows[j])
  }

  /** Every record of a section has a natural key that is not empty, and no two have the same one. */
  ghost predicate WellKeyed<R>(keyOf: R -> string, rows: seq<R>) {
    Distinct(keyOf, rows) && forall i :: 0 <= i < |rows| ==> keyOf(rows[i]) != ""
  }

  function ProviderName(r: ProviderRow): string { r.name }
  function BaseId(r: BaseRow): string { r.id }
  function MemoryName(r: MemoryRow): string { r.name }

  /** What validation demands of a bundle before anything is written. */
  ghost predicate ValidBundle(b: Bundle) {
    && WellKeyed(ProviderName, b.providers)
    && WellKeyed(BaseId, b.bases)
    && WellKeyed(SiteName, b.sites)
    && WellKeyed(MemoryName, b.memories)
    && WellKeyed(PluginKey, b.plugins)
    && WellKeyed(SkillName, b.skills)
    && WellKeyed(TargetPlatform, b.targets)
    && forall i, j :: 0 <= i < j < |b.providers| ==> !(b.providers[i].active && b.providers[j].active)
  }

  // ---------------------------------------------------------------------------------------------
  // One turn of each loop
  // ---------------------------------------------------------------------------------------------

  lemma {:induction false} ProviderStep(m: Providers, mode: Mode, dry: bool, rows: seq<ProviderRow>,
                                        i: nat, items: seq<Item>)
    requires i < |rows|
    ensures var c := ProviderChange(m, mode, rows[i]);
            var m' := Put(m, rows[i].name, c, dry);
            && ProvidersAfter(m, mode, dry, rows[i..]) == ProvidersAfter(m', mode, dry, rows[i + 1..])
            && items + ProviderItems(m, mode, dry, rows[i..])
               == items + [Report(rows[i].name, c)] + ProviderItems(m', mode, dry, rows[i + 1..])
  {
    hide ProviderChange;
    assert rows[i..][1..] == rows[i + 1..];
    var c := ProviderChange(m, mode, rows[i]);
    Associate(items, [Report(rows[i].name, c)], ProviderItems(Put(m, rows[i].name, c, dry), mode, dry, rows[i + 1..]));
  }

  lemma {:induction false} BaseStep(m: Bases, mode: Mode, dry: bool, rows: seq<BaseRow>, i: nat, items: seq<Item>)
    requires i < |rows|
    ensures var c := BaseChange(m, mode, dry, rows[i]);
            var m' := Put(m, rows[i].id, c, dry);
            && BasesAfter(m, mode, dry, rows[i..]) == BasesAfter(m', mode, dry, rows[i + 1..])
            && items + BaseItems(m, mode, dry, rows[i..])
               == items + [Report(rows[i].id, c)] + BaseItems(m', mode, dry, rows[i + 1..])
  {
    hide BaseChange;
    assert rows[i..][1..] == rows[i + 1..];
    var c := BaseChange(m, mode, dry, rows[i]);
    Associate(items, [Report(rows[i].id, c)], BaseItems(Put(m, rows[i].id, c, dry), mode, dry, rows[i + 1..]));
  }

  lemma {:induction false} MemoryStep(m: Memories, mode: Mode, dry: bool, rows: seq<MemoryRow>,
                                      i: nat, free: bool, items: seq<Item>)
    requires i < |rows|
    ensures var c := MemoryChange(m, mode, dry, rows[i], Grants(rows[i], free));
            var m', free' := Put(m, rows[i].name, c, dry), StillFree(c, rows[i], free);
            && MemoriesAfter(m, mode, dry, rows[i..], free) == MemoriesAfter(m', mode, dry, rows[i + 1..], free')
            && items + MemoryItems(m, mode, dry, rows[i..], free)
               == items + [Report(rows[i].name, c)] + MemoryItems(m', mode, dry, rows[i + 1..], free')
  {
    hide MemoryChange, Grants, StillFree;
    assert rows[i..][1..] == rows[i + 1..];
    var c := MemoryChange(m, mode, dry, rows[i], Grants(rows[i], free));
    Associate(items, [Report(rows[i].name, c)],
              MemoryItems(Put(m, rows[i].name, c, dry), mode, dry, rows[i + 1..], StillFree(c, rows[i], free)));
  }

  lemma {:induction false} MapStep<R, E>(rule: Rule<R, E>, keyOf: R -> string, m: map<string, E>, dry: bool,
                                         rows: seq<R>, i: nat, items: seq<Item>)
    requires i < |rows|
    ensures var key := keyOf(rows[i]);
            var c := rule(rows[i], At(m, key));
            var m' := Put(m, key, c, dry);
            && MapAfter(rule, keyOf, m, dry, rows[i..]) == MapAfter(rule, keyOf, m', dry, rows[i + 1..])
            && items + MapItems(rule, keyOf, m, dry, rows[i..])
               == items + [Report(key, c)] + MapItems(rule, keyOf, m', dry, rows[i + 1..])
  {
    assert rows[i..][1..] == rows[i + 1..];
    var key := keyOf(rows[i]);
    var c := rule(rows[i], At(m, key));
    Associate(items, [Report(key, c)], MapItems(rule, keyOf, Put(m, key, c, dry), dry, rows[i + 1..]));
  }

  lemma {:induction false} NothingToImport(p: Providers, b: Bases, m: Memories, mode: Mode, dry: bool, free: bool)
    ensures ProvidersAfter(p, mode, dry, []) == p && ProviderItems(p, mode, dry, []) == []
    ensures BasesAfter(b, mode, dry, []) == b && BaseItems(b, mode, dry, []) == []
    ensures MemoriesAfter(m, mode, dry, [], free) == m && MemoryItems(m, mode, dry, [], free) == []
  {
  }

  // ---------------------------------------------------------------------------------------------
  // The service: one loop over the rows of each section
  // ---------------------------------------------------------------------------------------------

  class ConfigBundleService {
    var providers: Providers
    var bases: Bases
    var sites: map<string, Site>
    var memories: Memories
    var global: Option<set<string>>
    var plugins: map<string, Plugin>
    var skills: map<string, Skill>
    var targets: map<string, Target>

    function Now(): Registries
      reads this
    {
      Registries(providers, bases, sites, memories, global, plugins, skills, targets)
    }

    constructor (r: Registries)
      ensures Now() == r
    {
      providers, bases, sites, memories := r.providers, r.bases, r.sites, r.memories;
      global, plugins, skills, targets := r.global, r.plugins, r.skills, r.targets;
    }

    method ImportProviders(x: Context, rows: seq<ProviderRow>) returns (items: seq<Item>)
      modifies `providers
      ensures providers == ProvidersAfter(old(providers), x.mode, x.dry, rows)
      ensures items == ProviderItems(old(providers), x.mode, x.dry, rows)
    {
      hide ProviderChange, ProvidersAfter, ProviderItems, Report;
      items := [];
      assert rows[0..] == rows;
      for i := 0 to |rows|
        invariant ProvidersAfter(providers, x.mode, x.dry, rows[i..])
                  == ProvidersAfter(old(providers), x.mode, x.dry, rows)
        invariant items + ProviderItems(providers, x.mode, x.dry, rows[i..])
                  == ProviderItems(old(providers), x.mode, x.dry, rows)
      {
        ProviderStep(providers, x.mode, x.dry, rows, i, items);
        var c := ProviderChange(providers, x.mode, rows[i]);
        items := items + [Report(rows[i].name, c)];
        if !x.dry && !c.action.NoAction? && c.entity.Some? { providers := providers[rows[i].name := c.entity.value]; }
      }
      assert rows[|rows|..] == [];
      NothingToImport(providers, bases, memories, x.mode, x.dry, false);
    }

    method ImportKnowledgeBases(x: Context, rows: seq<BaseRow>) returns (items: seq<Item>)
      modifies `bases
      ensures bases == BasesAfter(old(bases), x.mode, x.dry, rows)
      ensures items == BaseItems(old(bases), x.mode, x.dry, rows)
    {
      hide BaseChange, BasesAfter, BaseItems, Report;
      items := [];
      assert rows[0..] == rows;
      for i := 0 to |rows|
        invariant BasesAfter(bases, x.mode, x.dry, rows[i..]) == BasesAfter(old(bases), x.mode, x.dry, rows)
        invariant items + BaseItems(bases, x.mode, x.dry, rows[i..]) == BaseItems(old(bases), x.mode, x.dry, rows)
      {
        BaseStep(bases, x.mode, x.dry, rows, i, items);
        var c := BaseChange(bases, x.mode, x.dry, rows[i]);
        items := items + [Report(rows[i].id, c)];
        if !x.dry && !c.action.NoAction? && c.entity.Some? { bases := bases[rows[i].id := c.entity.value]; }
      }
      assert rows[|rows|..] == [];
      NothingToImport(providers, bases, memories, x.mode, x.dry, false);
    }

    method ImportMemories(x: Context, rows: seq<MemoryRow>) returns (items: seq<Item>)
      modifies `memories
      ensures memories == MemoriesAfter(old(memories), x.mode, x.dry, rows, SlotFree(old(memories), rows))
      ensures items == MemoryItems(old(memories), x.mode, x.dry, rows, SlotFree(old(memories), rows))
    {
      hide MemoryChange, MemoriesAfter, MemoryItems, SlotOwned, MemoryNames, Report;
      items := [];
      var slotOwner, granted := SlotOwned(memories, MemoryNames(rows)), false;
      assert rows[0..] == rows;
      for i := 0 to |rows|
        invariant MemoriesAfter(memories, x.mode, x.dry, rows[i..], !slotOwner && !granted)
                  == MemoriesAfter(old(memories), x.mode, x.dry, rows, !slotOwner)
        invariant items + MemoryItems(memories, x.mode, x.dry, rows[i..], !slotOwner && !granted)
                  == MemoryItems(old(memories), x.mode, x.dry, rows, !slotOwner)
      {
        MemoryStep(memories, x.mode, x.dry, rows, i, !slotOwner && !granted, items);
        var desiredEnabled := rows[i].enabled && !slotOwner && !granted;
        var c := MemoryChange(memories, x.mode, x.dry, rows[i], desiredEnabled);
        items := items + [Report(rows[i].name, c)];
        if !x.dry && !c.action.NoAction? && c.entity.Some? { memories := memories[rows[i].name := c.entity.value]; }
        if !c.outcome.Failed? && desiredEnabled { granted := true; }
      }
      assert rows[|rows|..] == [];
      NothingToImport(providers, bases, memories, x.mode, x.dry, !slotOwner && !granted);
    }

    /** The loop of the sections whose rows do not meet. */
    static method ImportRows<R, E>(rule: Rule<R, E>, keyOf: R -> string, m: map<string, E>, dry: bool, rows: seq<R>)
      returns (after: map<string, E>, items: seq<Item>)
      ensures after == MapAfter(rule, keyOf, m, dry, rows) && items == MapItems(rule, keyOf, m, dry, rows)
    {
      after, items := m, [];
      assert rows[0..] == rows;
      for i := 0 to |rows|
        invariant MapAfter(rule, keyOf, after, dry, rows[i..]) == MapAfter(rule, keyOf, m, dry, rows)
        invariant items + MapItems(rule, keyOf, after, dry, rows[i..]) == MapItems(rule, keyOf, m, dry, rows)
      {
        MapStep(rule, keyOf, after, dry, rows, i, items);
        var key := keyOf(rows[i]);
        var c := rule(rows[i], At(after, key));
        items := items + [Report(key, c)];
        after := Put(after, key, c, dry);
      }
    }

    method ImportBundle(x: Context, b: Bundle) returns (items: seq<Item>)
      modifies this
      ensures Now() == ImportAfter(old(Now()), b, x)
      ensures items == ImportItems(old(Now()), b, x)
    {
      hide ProvidersAfter, ProviderItems, BasesAfter, BaseItems, MemoriesAfter, MemoryItems, MapAfter, MapItems,
           GlobalChange;
      ghost var was := Now();
      items := ImportProviders(x, b.providers);
      var more := ImportKnowledgeBases(x, b.bases);
      items := items + more;
      sites, more := ImportRows(SiteRule(x.mode), SiteName, sites, x.dry, b.sites);
      items := items + more;
      more := ImportMemories(x, b.memories);
      items := items + more;
      var c := GlobalChange(global, memories, MemoryNames(b.memories), x.mode, b.global);
      if !x.dry { global := c.entity; }
      items := items + [Report(GLOBAL_KEY, c)];
      plugins, more := ImportRows(PluginRule(x.mode, PluginsBefore(x, plugins)), PluginKey, plugins, x.dry, b.plugins);
      items := items + more;
      skills, more := ImportRows(SkillRule(x.mode, SkillsBefore(x, skills)), SkillName, skills, x.dry, b.skills);
      items := items + more;
      targets, more := ImportRows(TargetRule(x.mode), TargetPlatform, targets, x.dry, b.targets);
      items := items + more;
    }
  }
}
