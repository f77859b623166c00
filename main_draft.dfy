/**
 * The earlier standalone program (src/main.rs): a provider registry `AppState` with add, edit and
 * remove operations, and one big key `match` over five tabs that drives it, a context file list
 * and a command line. It is a separate draft from the provider wizard and the shell: its own
 * registry, its own names for new entries and its own commit actions.
 *
 * `Registry` is the value of an `AppState`; `DraftState` is that plus the loop's local variables;
 * `DraftStep` is one pass of the loop. The classes `AppState` and `DraftLoop` update their fields
 * in place and are proved to follow these functions.
 */
module Draft {
  import opened Wrappers
  import opened Keys
  import opened Providers

  /** The five tab titles; Tab cycles through them and `1`..`5` jump to them. */
  const Views: seq<string> := ["Contexts", "Sessions", "Patterns", "Providers", "Models"]

  /** The index of the Providers tab, the only one whose keys touch the registry. */
  const ProvidersTab: nat := 3

  const ContextFiles: seq<string> := ["file1.txt", "file2.txt", "file3.txt"]

  /** `provider_types_count` of the Down arm. */
  const TypeCount: nat := 6

  /** The settings a new provider gets. */
  const PlaceholderSettings := ProviderSettings(Some("your_api_key"), Some("https://api.example.com"), Some("your_deployment"))

  /** The settings an edit stores. */
  const UpdatedSettings := ProviderSettings(Some("updated_api_key"), Some("https://api.updated.com"), Some("updated_deployment"))

  /** The entry `main` adds before the loop starts. */
  const SampleProvider := ProviderInstance("SampleProvider1", OpenAI)
  const SampleSettings := ProviderSettings(Some("sample_api_key"), None, None)

  /** The fields of an `AppState`. */
  datatype Registry = Registry(
    instances: map<string, ProviderInstance>,
    settings: map<string, ProviderSettings>,
    selectedType: Option<ProviderType>,
    adding: bool,
    editing: Option<string>,
    deleting: Option<string>)

  /** The two maps have the same keys and every instance is stored under its own name. */
  ghost predicate CoKeyed(g: Registry)
  {
    && g.instances.Keys == g.settings.Keys
    && (forall k :: k in g.instances ==> g.instances[k].name == k)
  }

  /** `AppState::new`. */
  function EmptyRegistry(): (g: Registry)
    ensures CoKeyed(g) && g.instances == map[] && !g.adding
  {
    Registry(map[], map[], None, false, None, None)
  }

  /** `add_provider`: insert under the provider's own name into both maps (overwriting a present entry). */
  function RegistryAdd(g: Registry, provider: ProviderInstance, stored: ProviderSettings): Registry
  {
    g.(instances := g.instances[provider.name := provider], settings := g.settings[provider.name := stored])
  }

  /** `remove_provider`: delete the name from both maps (nothing happens if it is absent). */
  function RegistryRemove(g: Registry, name: string): Registry
  {
    g.(instances := g.instances - {name}, settings := g.settings - {name})
  }

  /** `edit_provider`: insert under the given name into both maps. */
  function RegistryEdit(g: Registry, name: string, provider: ProviderInstance, stored: ProviderSettings): Registry
  {
    g.(instances := g.instances[name := provider], settings := g.settings[name := stored])
  }

  // ---------------------------------------------------------------- registry properties

  /** Adding keeps the maps co-keyed; the entry is there afterwards and the count grows by one exactly when it was new. */
  lemma AddKeepsCoKeyed(g: Registry, provider: ProviderInstance, stored: ProviderSettings)
    requires CoKeyed(g)
    ensures var h := RegistryAdd(g, provider, stored);
      && CoKeyed(h)
      && h.instances.Keys == g.instances.Keys + {provider.name}
      && h.instances[provider.name] == provider && h.settings[provider.name] == stored
      && (provider.name !in g.instances ==> |h.instances| == |g.instances| + 1)
      && (provider.name in g.instances ==> |h.instances| == |g.instances|)
  {
  }

  /** Removing keeps the maps co-keyed, and takes exactly that name out of both. */
  lemma RemoveKeepsCoKeyed(g: Registry, name: string)
    requires CoKeyed(g)
    ensures var h := RegistryRemove(g, name);
      && CoKeyed(h)
      && h.instances.Keys == g.instances.Keys - {name}
      && (forall k :: k in h.instances ==> h.instances[k] == g.instances[k] && h.settings[k] == g.settings[k])
  {
  }

  /** Editing an entry under its own name keeps the maps co-keyed and the key set as it was. */
  lemma EditKeepsCoKeyed(g: Registry, name: string, provider: ProviderInstance, stored: ProviderSettings)
    requires CoKeyed(g) && name in g.instances && provider.name == name
    ensures var h := RegistryEdit(g, name, provider, stored);
      && CoKeyed(h)
      && h.instances.Keys == g.instances.Keys
      && h.instances[name] == provider && h.settings[name] == stored
  {
  }

  /** Removing a name that was just added as new gives back the registry it was added to. */
  lemma RemoveUndoesAdd(g: Registry, provider: ProviderInstance, stored: ProviderSettings)
    requires CoKeyed(g) && provider.name !in g.instances
    ensures RegistryRemove(RegistryAdd(g, provider, stored), provider.name) == g
  {
    var h := RegistryRemove(RegistryAdd(g, provider, stored), provider.name);
    assert h.instances == g.instances;
    assert h.settings == g.settings;
  }

  // ---------------------------------------------------------------- the loop state

  /** The registry plus the local variables of `main`'s loop. */
  datatype DraftState = DraftState(
    reg: Registry,
    commandInput: string,
    infoMessage: string,
    activeView: nat,
    selectedContext: nat,
    contextSelection: Option<nat>,
    fileContent: string,
    cursor: Option<nat>)   // `provider_list_state`, shared by the type list and the provider list

  /** A pass of the loop either goes on with a new state or leaves the loop. */
  datatype Outcome = Continue(state: DraftState) | Exit

  /** What holds in every state the loop reaches. */
  ghost predicate DraftInv(s: DraftState)
  {
    && s.activeView < |Views|
    && s.selectedContext < |ContextFiles|
    && s.contextSelection == Some(s.selectedContext)
    && CoKeyed(s.reg)
    && s.cursor.Some?
    && (s.reg.adding ==> s.cursor.value < TypeCount)
  }

  /** The state when the loop starts: one sample provider, first tab, first file. */
  function InitialDraft(read: string -> Option<string>): (s: DraftState)
    ensures DraftInv(s)
    ensures s.reg.instances == map["SampleProvider1" := SampleProvider]
    ensures s.fileContent == OrEmpty(read("file1.txt"))
    ensures s.activeView == 0 && s.selectedContext == 0 && s.contextSelection == Some(0)
    ensures s.commandInput == "" && s.infoMessage == "" && s.cursor == Some(0)
  {
    var reg := RegistryAdd(EmptyRegistry(), SampleProvider, SampleSettings);
    var content := match read(ContextFiles[0]) case Some(text) => text case None => "";
    DraftState(reg, "", "", 0, 0, Some(0), content, Some(0))
  }

  /** The one key the loop cannot handle: Down on an empty provider list, where `len() - 1` underflows. */
  predicate CanHandle(s: DraftState, key: Key, names: seq<string>)
  {
    !(key == Down && s.activeView == ProvidersTab && !s.reg.adding && s.cursor.Some? && |names| == 0)
  }

  /** One pass of the loop for one key; `names` is the order in which the registry yields its keys. */
  function DraftStep(s: DraftState, key: Key, names: seq<string>, read: string -> Option<string>): Outcome
    requires s.selectedContext < |ContextFiles|
    requires CanHandle(s, key, names)
  {
    match key
    case Char(c) => Continue(CharStep(s, c, names))
    case Enter => Continue(EnterStep(s))
    case Tab => Continue(s.(activeView := (s.activeView + 1) % |Views|))
    case Down => Continue(DownStep(s, names, read))
    case Up => Continue(UpStep(s, read))
    case Esc => Exit
    case _ => Continue(s)
  }

  /** The tab a digit shortcut selects: `1` is the first. */
  function DigitView(c: char): nat
    requires '1' <= c <= '5'
  {
    c as int - '1' as int
  }

  /** The character arms, in their order: command line, digit shortcuts, then `a`, `e`, `d` on the Providers tab. */
  function CharStep(s: DraftState, c: char, names: seq<string>): DraftState
  {
    if c == ':' then s.(commandInput := s.commandInput + [':'])
    else if InCommandMode(s.commandInput) then s.(commandInput := s.commandInput + [c])
    else if '1' <= c <= '5' then s.(activeView := DigitView(c))
    else if s.activeView == ProvidersTab && c == 'a' then
      s.(reg := s.reg.(adding := true), cursor := Some(0), infoMessage := "Add Provider action triggered")
    else if s.activeView == ProvidersTab && c == 'e' then
      if s.cursor.Some? && s.cursor.value < |names| then
        var name := names[s.cursor.value];
        s.(reg := s.reg.(editing := Some(name)), infoMessage := "Edit Provider action triggered for " + name)
      else s
    else if s.activeView == ProvidersTab && c == 'd' then
      if s.cursor.Some? && s.cursor.value < |names| then
        var name := names[s.cursor.value];
        s.(reg := s.reg.(deleting := Some(name)), infoMessage := "Delete Provider action triggered for " + name)
      else s
    else s
  }

  /** The Enter arms, in their order: command line, then add, edit and delete commits on the Providers tab. */
  function EnterStep(s: DraftState): DraftState
  {
    if InCommandMode(s.commandInput) then s.(commandInput := "")
    else if s.activeView == ProvidersTab && s.reg.adding then CommitAdd(s)
    else if s.activeView == ProvidersTab && s.reg.editing.Some? then CommitEdit(s)
    else if s.activeView == ProvidersTab && s.reg.deleting.Some? then CommitDelete(s)
    else s
  }

  /** Add: the type under the cursor, stored as `Provider<len+1>` with placeholder settings. */
  function CommitAdd(s: DraftState): DraftState
  {
    if s.cursor.Some? then
      var t := TypeAtIndex(s.cursor.value);
      var provider := ProviderInstance(ProviderName(|s.reg.instances| + 1), t);
      s.(reg := RegistryAdd(s.reg, provider, PlaceholderSettings).(adding := false),
         infoMessage := "Added new provider of type " + DebugName(t))
    else s
  }

  /** Edit: keep the entry's name and type, store the fixed updated settings; an absent name changes nothing. */
  function CommitEdit(s: DraftState): DraftState
    requires s.reg.editing.Some?
  {
    var name := s.reg.editing.value;
    if name in s.reg.instances then
      var provider := s.reg.instances[name];
      s.(reg := RegistryEdit(s.reg, name, ProviderInstance(provider.name, provider.providerType), UpdatedSettings)
                 .(editing := None),
         infoMessage := "Edited provider " + name)
    else s
  }

  /** Delete: remove the marked name from both maps. */
  function CommitDelete(s: DraftState): DraftState
    requires s.reg.deleting.Some?
  {
    var name := s.reg.deleting.value;
    s.(reg := RegistryRemove(s.reg, name).(deleting := None), infoMessage := "Deleted provider " + name)
  }

  /** Show file `i` if it can be read; a failed read keeps the text that was shown. */
  function ShowContext(s: DraftState, i: nat, read: string -> Option<string>): DraftState
    requires i < |ContextFiles|
  {
    var content := match read(ContextFiles[i]) case Some(text) => text case None => s.fileContent;
    s.(selectedContext := i, contextSelection := Some(i), fileContent := content)
  }

  /** The Down arms: type list or provider list on the Providers tab, file list on the Contexts tab. */
  function DownStep(s: DraftState, names: seq<string>, read: string -> Option<string>): DraftState
    requires s.selectedContext < |ContextFiles|
    requires CanHandle(s, Down, names)
  {
    if s.activeView == ProvidersTab then
      if s.reg.adding then
        match s.cursor
        case Some(i) => if i < TypeCount - 1 then s.(cursor := Some(i + 1)) else s
        case None => s.(cursor := Some(0))
      else
        match s.cursor
        case Some(i) => if i < |names| - 1 then s.(cursor := Some(i + 1)) else s
        case None => s.(cursor := Some(0))
    else if s.activeView == 0 then
      if s.selectedContext < |ContextFiles| - 1 then ShowContext(s, s.selectedContext + 1, read) else s
    else s
  }

  /** The Up arms: both provider lists stop at 0, the file list at the first file. */
  function UpStep(s: DraftState, read: string -> Option<string>): DraftState
    requires s.selectedContext < |ContextFiles|
  {
    if s.activeView == ProvidersTab then
      match s.cursor
      case Some(i) => if i > 0 then s.(cursor := Some(i - 1)) else s
      case None => s
    else if s.activeView == 0 then
      if s.selectedContext > 0 then ShowContext(s, s.selectedContext - 1, read) else s
    else s
  }

  // ---------------------------------------------------------------- loop properties

  /** Every key the loop can handle keeps the invariant, or leaves the loop. */
  lemma DraftStepKeepsInv(s: DraftState, key: Key, names: seq<string>, read: string -> Option<string>)
    requires DraftInv(s) && IsEnumeration(names, s.reg.instances.Keys) && CanHandle(s, key, names)
    ensures var o := DraftStep(s, key, names, read); o.Continue? ==> DraftInv(o.state)
  {
    match key
    case Char(c) => CharStepKeepsInv(s, c, names);
    case Enter => EnterStepKeepsInv(s);
    case Down => DownStepKeepsInv(s, names, read);
    case _ =>
  }

  lemma CharStepKeepsInv(s: DraftState, c: char, names: seq<string>)
    requires DraftInv(s)
    ensures DraftInv(CharStep(s, c, names))
  {
    var r := CharStep(s, c, names);
    assert r.reg.instances == s.reg.instances && r.reg.settings == s.reg.settings;
  }

  lemma EnterStepKeepsInv(s: DraftState)
    requires DraftInv(s)
    ensures DraftInv(EnterStep(s))
  {
    if !InCommandMode(s.commandInput) && s.activeView == ProvidersTab {
      if s.reg.adding {
        if s.cursor.Some? {
          var provider := ProviderInstance(ProviderName(|s.reg.instances| + 1), TypeAtIndex(s.cursor.value));
          AddKeepsCoKeyed(s.reg, provider, PlaceholderSettings);
        }
      } else if s.reg.editing.Some? {
        var name := s.reg.editing.value;
        if name in s.reg.instances {
          var provider := s.reg.instances[name];
          EditKeepsCoKeyed(s.reg, name, ProviderInstance(provider.name, provider.providerType), UpdatedSettings);
        }
      } else if s.reg.deleting.Some? {
        RemoveKeepsCoKeyed(s.reg, s.reg.deleting.value);
      }
    }
  }

  lemma DownStepKeepsInv(s: DraftState, names: seq<string>, read: string -> Option<string>)
    requires DraftInv(s) && CanHandle(s, Down, names)
    ensures DraftInv(DownStep(s, names, read))
  {
  }

  /** Tab moves to the next of the five tabs, wrapping after the last; nothing else changes. */
  lemma TabCyclesFive(s: DraftState, names: seq<string>, read: string -> Option<string>)
    requires DraftInv(s)
    ensures DraftStep(s, Tab, names, read) == Continue(s.(activeView := (s.activeView + 1) % 5))
    ensures s.activeView == 4 ==> DraftStep(s, Tab, names, read).state.activeView == 0
  {
  }

  /** Outside a command, `1`..`5` select tabs 0..4; inside a command they are typed into it. */
  lemma DigitsSelectTabs(s: DraftState, c: char, names: seq<string>)
    requires '1' <= c <= '5'
    ensures !InCommandMode(s.commandInput) ==>
      CharStep(s, c, names) == s.(activeView := c as int - '1' as int) && CharStep(s, c, names).activeView < 5
    ensures InCommandMode(s.commandInput) ==> CharStep(s, c, names) == s.(commandInput := s.commandInput + [c])
  {
  }

  /**
   * Enter while adding stores `Provider<len+1>` with the type under the cursor and the placeholder
   * settings, and ends adding. When that name is already taken (after a delete) the entry is
   * replaced and the count stays the same; otherwise the count grows by one. An edit or delete that
   * is pending stays pending: adding takes precedence.
   */
  lemma AddCommit(s: DraftState)
    requires DraftInv(s) && !InCommandMode(s.commandInput) && s.activeView == ProvidersTab && s.reg.adding
    ensures var r := EnterStep(s);
      var name := ProviderName(|s.reg.instances| + 1);
      var t := TypeAtIndex(s.cursor.value);
      && r.reg.instances == s.reg.instances[name := ProviderInstance(name, t)]
      && r.reg.settings == s.reg.settings[name := PlaceholderSettings]
      && (name in s.reg.instances ==> |r.reg.instances| == |s.reg.instances|)
      && (name !in s.reg.instances ==> |r.reg.instances| == |s.reg.instances| + 1)
      && !r.reg.adding && r.reg.editing == s.reg.editing && r.reg.deleting == s.reg.deleting
      && r.infoMessage == "Added new provider of type " + TypeNames()[s.cursor.value]
  {
    TypeNamesAgree(s.cursor.value);
  }

  /**
   * Enter while editing (and not adding) keeps the entry's name and type and replaces its settings by
   * the fixed updated ones; if the name is no longer in the registry nothing changes.
   */
  lemma EditCommit(s: DraftState)
    requires DraftInv(s) && !InCommandMode(s.commandInput) && s.activeView == ProvidersTab
    requires !s.reg.adding && s.reg.editing.Some?
    ensures var r := EnterStep(s);
      var name := s.reg.editing.value;
      if name in s.reg.instances then
        && r.reg.instances == s.reg.instances
        && r.reg.settings == s.reg.settings[name := UpdatedSettings]
        && r.reg.editing == None && r.reg.deleting == s.reg.deleting
        && r.infoMessage == "Edited provider " + name
      else
        r == s
  {
    var name := s.reg.editing.value;
    if name in s.reg.instances {
      var r := EnterStep(s);
      assert r.reg.instances == s.reg.instances by {
        assert s.reg.instances[name] == ProviderInstance(name, s.reg.instances[name].providerType);
      }
    }
  }

  /** Enter while deleting (and neither adding nor editing) removes the name from both maps. */
  lemma DeleteCommit(s: DraftState)
    requires DraftInv(s) && !InCommandMode(s.commandInput) && s.activeView == ProvidersTab
    requires !s.reg.adding && s.reg.editing.None? && s.reg.deleting.Some?
    ensures var r := EnterStep(s);
      var name := s.reg.deleting.value;
      && name !in r.reg.instances && name !in r.reg.settings
      && r.reg.instances == s.reg.instances - {name}
      && r.reg.settings == s.reg.settings - {name}
      && r.reg.deleting == None
      && r.infoMessage == "Deleted provider " + name
  {
  }

  /** While adding, the shared cursor stays on one of the six types: Down stops at 5, Up at 0. */
  lemma AddCursorClamped(s: DraftState, names: seq<string>, read: string -> Option<string>)
    requires DraftInv(s) && s.activeView == ProvidersTab && s.reg.adding
    ensures var r := DownStep(s, names, read);
      r.cursor == Some(if s.cursor.value < 5 then s.cursor.value + 1 else 5)
    ensures var r := UpStep(s, read);
      r.cursor == Some(if s.cursor.value > 0 then s.cursor.value - 1 else 0)
  {
  }

  /**
   * On the Contexts tab the file cursor moves within [0, 2]; the shown text is replaced only when the
   * new file can be read.
   */
  lemma ContextCursor(s: DraftState, names: seq<string>, read: string -> Option<string>)
    requires DraftInv(s) && s.activeView == 0
    ensures var r := DownStep(s, names, read);
      && r.selectedContext == (if s.selectedContext < 2 then s.selectedContext + 1 else 2)
      && (r.selectedContext != s.selectedContext && read(ContextFiles[r.selectedContext]).Some? ==>
            r.fileContent == read(ContextFiles[r.selectedContext]).value)
      && (read(ContextFiles[r.selectedContext]).None? ==> r.fileContent == s.fileContent)
    ensures var r := UpStep(s, read);
      && r.selectedContext == (if s.selectedContext > 0 then s.selectedContext - 1 else 0)
      && (read(ContextFiles[r.selectedContext]).None? ==> r.fileContent == s.fileContent)
  {
  }

  /** Esc leaves the loop whatever the state, also in the middle of a command. */
  lemma EscQuits(s: DraftState, names: seq<string>, read: string -> Option<string>)
    requires s.selectedContext < |ContextFiles| && CanHandle(s, Esc, names)
    ensures DraftStep(s, Esc, names, read) == Exit
  {
  }

  /**
   * Starting from the sample registry: add (OpenAI), delete SampleProvider1, add again (Ollama). The
   * second add computes the name Provider2 again and replaces the first one, so one entry is left.
   */
  lemma AddAfterDeleteOverwrites()
    ensures
      var g0 := RegistryAdd(EmptyRegistry(), SampleProvider, SampleSettings);
      var g1 := RegistryAdd(g0, ProviderInstance(ProviderName(|g0.instances| + 1), OpenAI), PlaceholderSettings);
      var g2 := RegistryRemove(g1, "SampleProvider1");
      var g3 := RegistryAdd(g2, ProviderInstance(ProviderName(|g2.instances| + 1), Ollama), PlaceholderSettings);
      && |g1.instances| == 2 && |g2.instances| == 1
      && g3.instances == map["Provider2" := ProviderInstance("Provider2", Ollama)]
  {
    assert Decimal.NatToString(2) == "2";
    var g0 := RegistryAdd(EmptyRegistry(), SampleProvider, SampleSettings);
    var p := ProviderInstance("Provider2", OpenAI);
    assert ProviderName(|g0.instances| + 1) == "Provider2";
    var g1 := RegistryAdd(g0, p, PlaceholderSettings);
    assert g1.instances.Keys == {"SampleProvider1", "Provider2"};
    var g2 := RegistryRemove(g1, "SampleProvider1");
    assert g2.instances == map["Provider2" := p];
  }

  // ---------------------------------------------------------------- the registry object

  class AppState {
    var providerInstances: map<string, ProviderInstance>
    var providerSettings: map<string, ProviderSettings>
    var selectedProviderType: Option<ProviderType>
    var addingProvider: bool
    var editingProvider: Option<string>
    var deletingProvider: Option<string>

    function Value(): Registry
      reads this
    {
      Registry(providerInstances, providerSettings, selectedProviderType, addingProvider, editingProvider, deletingProvider)
    }

    constructor ()
      ensures Value() == EmptyRegistry()
    {
      providerInstances := map[];
      providerSettings := map[];
      selectedProviderType := None;
      addingProvider := false;
      editingProvider := None;
      deletingProvider := None;
    }

    method AddProvider(provider: ProviderInstance, stored: ProviderSettings)
      modifies this
      ensures Value() == RegistryAdd(old(Value()), provider, stored)
    {
      var name := provider.name;
      providerInstances := providerInstances[name := provider];
      providerSettings := providerSettings[name := stored];
    }

    /** `get_provider_names`: every key once, in the order the map yields them (any order). */
    method GetProviderNames() returns (names: seq<string>)
      ensures IsEnumeration(names, providerInstances.Keys)
    {
      names := [];
      var rest := providerInstances.Keys;
      while rest != {}
        invariant rest <= providerInstances.Keys
        invariant forall i :: 0 <= i < |names| ==> names[i] in providerInstances.Keys && names[i] !in rest
        invariant forall i, j :: 0 <= i < j < |names| ==> names[i] != names[j]
        invariant forall k :: k in providerInstances.Keys ==> k in rest || k in names
        decreases |rest|
      {
        var k :| k in rest;
        names := names + [k];
        rest := rest - {k};
      }
    }

    method RemoveProvider(name: string)
      modifies this
      ensures Value() == RegistryRemove(old(Value()), name)
    {
      providerInstances := providerInstances - {name};
      providerSettings := providerSettings - {name};
    }

    method EditProvider(name: string, provider: ProviderInstance, stored: ProviderSettings)
      modifies this
      ensures Value() == RegistryEdit(old(Value()), name, provider, stored)
    {
      providerInstances := providerInstances[name := provider];
      providerSettings := providerSettings[name := stored];
    }
  }

  // ---------------------------------------------------------------- the loop object

  /** The loop of `main`: its local variables as fields, next to the registry object. */
  class DraftLoop {
    const app: AppState
    var commandInput: string
    var infoMessage: string
    var activeView: nat
    var selectedContext: nat
    var contextSelection: Option<nat>
    var fileContent: string
    var providerCursor: Option<nat>

    function State(): DraftState
      reads this, app
    {
      DraftState(app.Value(), commandInput, infoMessage, activeView, selectedContext, contextSelection,
                 fileContent, providerCursor)
    }

    ghost predicate Valid()
      reads this, app
    {
      DraftInv(State())
    }

    /** The set-up before the loop: the sample provider, the first file read, both cursors on 0. */
    constructor (read: string -> Option<string>)
      ensures Valid() && State() == InitialDraft(read) && fresh(app)
    {
      app := new AppState();
      commandInput := "";
      infoMessage := "";
      activeView := 0;
      selectedContext := 0;
      contextSelection := Some(0);
      fileContent := "";
      providerCursor := Some(0);
      new;
      var first := read(ContextFiles[0]);
      if first.Some? {
        fileContent := first.value;
      }
      app.AddProvider(SampleProvider, SampleSettings);
    }

    /** One pass of the loop for `key`; `quit` is the `break` on Esc. */
    method HandleKey(key: Key, names: seq<string>, read: string -> Option<string>) returns (quit: bool)
      requires Valid() && IsEnumeration(names, app.providerInstances.Keys) && CanHandle(State(), key, names)
      modifies this, app
      ensures Valid()
      ensures quit <==> key == Esc
      ensures DraftStep(old(State()), key, names, read) == (if quit then Exit else Continue(State()))
    {
      ghost var s := State();
      quit := false;
      match key {
        case Char(c) =>
          HandleChar(c, names);
          CharStepKeepsInv(s, c, names);
        case Enter =>
          HandleEnter();
          EnterStepKeepsInv(s);
        case Tab =>
          activeView := (activeView + 1) % |Views|;
        case Down =>
          HandleDown(names, read);
          DownStepKeepsInv(s, names, read);
        case Up =>
          HandleUp(read);
        case Esc =>
          quit := true;
        case _ =>
      }
    }

    method HandleChar(c: char, names: seq<string>)
      modifies this, app
      ensures State() == CharStep(old(State()), c, names)
    {
      if c == ':' {
        commandInput := commandInput + [':'];
      } else if InCommandMode(commandInput) {
        commandInput := commandInput + [c];
      } else if '1' <= c <= '5' {
        activeView := DigitView(c);
      } else if activeView == ProvidersTab && c == 'a' {
        app.addingProvider := true;
        providerCursor := Some(0);
        infoMessage := "Add Provider action triggered";
      } else if activeView == ProvidersTab && c == 'e' {
        if providerCursor.Some? && providerCursor.value < |names| {
          app.editingProvider := Some(names[providerCursor.value]);
          infoMessage := "Edit Provider action triggered for " + names[providerCursor.value];
        }
      } else if activeView == ProvidersTab && c == 'd' {
        if providerCursor.Some? && providerCursor.value < |names| {
          app.deletingProvider := Some(names[providerCursor.value]);
          infoMessage := "Delete Provider action triggered for " + names[providerCursor.value];
        }
      }
    }

    method HandleEnter()
      modifies this, app
      ensures State() == EnterStep(old(State()))
    {
      if InCommandMode(commandInput) {
        commandInput := "";
      } else if activeView == ProvidersTab && app.addingProvider {
        AddSelected();
      } else if activeView == ProvidersTab && app.editingProvider.Some? {
        EditMarked();
      } else if activeView == ProvidersTab && app.deletingProvider.Some? {
        DeleteMarked();
      }
    }

    /** Enter while adding. */
    method AddSelected()
      modifies this, app
      ensures State() == CommitAdd(old(State()))
    {
      if providerCursor.Some? {
        var t := TypeAtIndex(providerCursor.value);
        app.AddProvider(ProviderInstance(ProviderName(|app.providerInstances| + 1), t), PlaceholderSettings);
        app.addingProvider := false;
        infoMessage := "Added new provider of type " + DebugName(t);
      }
    }

    /** Enter while editing. */
    method EditMarked()
      requires app.editingProvider.Some?
      modifies this, app
      ensures State() == CommitEdit(old(State()))
    {
      var name := app.editingProvider.value;
      if name in app.providerInstances {
        var provider := app.providerInstances[name];
        app.EditProvider(name, ProviderInstance(provider.name, provider.providerType), UpdatedSettings);
        app.editingProvider := None;
        infoMessage := "Edited provider " + name;
      }
    }

    /** Enter while deleting. */
    method DeleteMarked()
      requires app.deletingProvider.Some?
      modifies this, app
      ensures State() == CommitDelete(old(State()))
    {
      var name := app.deletingProvider.value;
      app.RemoveProvider(name);
      app.deletingProvider := None;
      infoMessage := "Deleted provider " + name;
    }

    method HandleDown(names: seq<string>, read: string -> Option<string>)
      requires selectedContext < |ContextFiles| && CanHandle(State(), Down, names)
      modifies this
      ensures State() == DownStep(old(State()), names, read)
    {
      if activeView == ProvidersTab {
        if app.addingProvider {
          if providerCursor.Some? {
            if providerCursor.value < TypeCount - 1 {
              providerCursor := Some(providerCursor.value + 1);
            }
          } else {
            providerCursor := Some(0);
          }
        } else {
          if providerCursor.Some? {
            if providerCursor.value < |names| - 1 {
              providerCursor := Some(providerCursor.value + 1);
            }
          } else {
            providerCursor := Some(0);
          }
        }
      } else if activeView == 0 {
        if selectedContext < |ContextFiles| - 1 {
          ShowFile(selectedContext + 1, read);
        }
      }
    }

    method HandleUp(read: string -> Option<string>)
      requires selectedContext < |ContextFiles|
      modifies this
      ensures State() == UpStep(old(State()), read)
    {
      if activeView == ProvidersTab {
        if providerCursor.Some? && providerCursor.value > 0 {
          providerCursor := Some(providerCursor.value - 1);
        }
      } else if activeView == 0 {
        if selectedContext > 0 {
          ShowFile(selectedContext - 1, read);
        }
      }
    }

    /** Select file `i` and replace the shown text if the file can be read. */
    method ShowFile(i: nat, read: string -> Option<string>)
      requires i < |ContextFiles|
      modifies this
      ensures State() == ShowContext(old(State()), i, read)
    {
      selectedContext := i;
      contextSelection := Some(i);
      var content := read(ContextFiles[i]);
      if content.Some? {
        fileContent := content.value;
      }
    }

    /**
     * The loop itself over a stream of keys: each pass lists the registry's names and handles one
     * key, until Esc, the end of the stream, or a key the program panics on (Down on an empty
     * provider list), whose position is `handled`.
     */
    method Run(keys: seq<Key>, read: string -> Option<string>) returns (handled: nat, quit: bool, panicked: bool)
      requires Valid()
      modifies this, app
      ensures Valid()
      ensures handled <= |keys|
      ensures Esc !in keys[..handled]
      ensures quit ==> handled < |keys| && keys[handled] == Esc && !panicked
      ensures panicked ==>
        && handled < |keys| && keys[handled] == Down && activeView == ProvidersTab
        && !app.addingProvider && app.providerInstances == map[]
      ensures !quit && !panicked ==> handled == |keys|
    {
      handled, quit, panicked := 0, false, false;
      while handled < |keys| && !quit && !panicked
        invariant Valid()
        invariant handled <= |keys|
        invariant Esc !in keys[..handled]
        invariant quit ==> handled < |keys| && keys[handled] == Esc && !panicked
        invariant panicked ==>
          && handled < |keys| && keys[handled] == Down && activeView == ProvidersTab
          && !app.addingProvider && app.providerInstances == map[]
        decreases |keys| - handled, !quit && !panicked
      {
        var names := app.GetProviderNames();
        var key := keys[handled];
        if !CanHandle(State(), key, names) {
          EnumerationLength(names, app.providerInstances.Keys);
          panicked := true;
        } else {
          quit := HandleKey(key, names, read);
          if !quit {
            assert keys[..handled + 1] == keys[..handled] + [key];
            handled := handled + 1;
          }
        }
      }
    }
  }
}
