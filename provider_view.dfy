/**
 * The provider tab (src/provider_view.rs): an in-memory registry of providers and the
 * key-driven wizard that adds to it. `current_step` is None (the provider list), SelectType
 * (a six-entry type list) or ConfigureSettings (three text fields).
 *
 * `WizardState` is the whole state of the view as one value and `Transition` is what one key
 * does to it; the class `ProviderView` updates its fields in place and is proved to follow
 * `Transition`. The lemmas state what the wizard promises.
 */
module ProviderWizard {
  import opened Wrappers
  import opened Keys
  import opened Providers

  datatype AddProviderStep = SelectType | ConfigureSettings

  datatype WizardState = WizardState(
    instances: map<string, ProviderInstance>,
    settings: map<string, ProviderSettings>,
    addingProvider: bool,
    editingProvider: Option<string>,
    deletingProvider: Option<string>,
    currentStep: Option<AddProviderStep>,
    settingsInput: seq<string>,
    activeInputIndex: nat,
    providerCursor: Option<nat>,
    typeCursor: Option<nat>,
    selectedType: Option<ProviderType>)

  /** The new state and the new info line after one key. */
  datatype Reaction = Reaction(state: WizardState, info: string)

  /**
   * The two maps have the same keys, the keys are exactly Provider1 .. ProviderN for N entries,
   * and every instance carries its own key as its name.
   */
  ghost predicate Registered(instances: map<string, ProviderInstance>, settings: map<string, ProviderSettings>)
  {
    && instances.Keys == settings.Keys
    && instances.Keys == GeneratedNames(|instances|)
    && (forall k :: k in instances ==> instances[k].name == k)
  }

  /** What holds in every reachable state of the view. */
  ghost predicate Inv(s: WizardState)
  {
    && |s.settingsInput| == 3
    && s.activeInputIndex < 3
    && (s.typeCursor.Some? ==> s.typeCursor.value < |TypeNames()|)
    && (s.providerCursor.Some? ==> s.providerCursor.value == 0 || s.providerCursor.value < |s.instances|)
    && Registered(s.instances, s.settings)
    // the `unwrap` of the commit never fails: a type has been chosen whenever one is needed
    && (|s.instances| > 0 || s.currentStep == Some(ConfigureSettings) ==> s.selectedType.Some?)
  }

  /** `ProviderView::new`: empty registry, list view, both list cursors on 0. */
  function Initial(): (s: WizardState)
    ensures Inv(s) && s.instances == map[] && s.settings == map[] && s.currentStep == None
  {
    WizardState(map[], map[], false, None, None, None, ["", "", ""], 0, Some(0), Some(0), None)
  }

  /**
   * The only key the view cannot handle: Down on the provider list while the registry is empty,
   * where `len() - 1` underflows.
   */
  predicate CanHandle(s: WizardState, key: Key, names: seq<string>)
  {
    !(s.currentStep == None && key == Down && s.providerCursor.Some? && |names| == 0)
  }

  /** `handle_input`; `names` is the order in which the registry's map yields its keys. */
  function Transition(s: WizardState, key: Key, names: seq<string>, info: string): Reaction
    requires Inv(s) && IsEnumeration(names, s.instances.Keys) && CanHandle(s, key, names)
  {
    match s.currentStep
    case Some(SelectType) => SelectTypeStep(s, key, info)
    case Some(ConfigureSettings) => ConfigureStep(s, key, info)
    case None => IdleStep(s, key, names, info)
  }

  function SelectTypeStep(s: WizardState, key: Key, info: string): Reaction
    requires s.typeCursor.Some? ==> s.typeCursor.value < |TypeNames()|
  {
    match key
    case Down =>
      if s.typeCursor.Some? && s.typeCursor.value < |TypeNames()| - 1
      then Reaction(s.(typeCursor := Some(s.typeCursor.value + 1)), info)
      else Reaction(s, info)
    case Up =>
      if s.typeCursor.Some? && s.typeCursor.value > 0
      then Reaction(s.(typeCursor := Some(s.typeCursor.value - 1)), info)
      else Reaction(s, info)
    case Enter =>
      if s.typeCursor.Some?
      then Reaction(
        s.(selectedType := TypeFromName(TypeNames()[s.typeCursor.value]), currentStep := Some(ConfigureSettings)),
        "Configure the selected provider settings")
      else Reaction(s, info)
    case Esc => Reaction(s.(currentStep := None), "")
    case _ => Reaction(s, info)
  }

  function ConfigureStep(s: WizardState, key: Key, info: string): Reaction
    requires |s.settingsInput| == 3 && s.activeInputIndex < 3 && s.selectedType.Some?
  {
    var i := s.activeInputIndex;
    match key
    case Tab => Reaction(s.(activeInputIndex := (i + 1) % 3), info)
    case BackTab => Reaction(s.(activeInputIndex := if i == 0 then 2 else i - 1), info)
    case Char(c) => Reaction(s.(settingsInput := s.settingsInput[i := s.settingsInput[i] + [c]]), info)
    case Enter => Commit(s)
    case Backspace =>
      if s.settingsInput[i] != []
      then Reaction(s.(settingsInput := s.settingsInput[i := s.settingsInput[i][..|s.settingsInput[i]| - 1]]), info)
      else Reaction(s, info)
    case Esc => Reaction(s.(currentStep := None), "")
    case _ => Reaction(s, info)
  }

  /** Enter on the settings form: always a new entry `Provider<N+1>`, whatever `editingProvider` says. */
  function Commit(s: WizardState): Reaction
    requires |s.settingsInput| == 3 && s.selectedType.Some?
  {
    var name := ProviderName(|s.instances| + 1);
    var instance := ProviderInstance(name, s.selectedType.value);
    var stored := ProviderSettings(Some(s.settingsInput[0]), Some(s.settingsInput[1]), Some(s.settingsInput[2]));
    Reaction(
      s.(instances := s.instances[name := instance],
         settings := s.settings[name := stored],
         currentStep := None,
         settingsInput := ["", "", ""]),
      "Provider added successfully.")
  }

  function IdleStep(s: WizardState, key: Key, names: seq<string>, info: string): Reaction
    requires s.instances.Keys == s.settings.Keys && IsEnumeration(names, s.instances.Keys)
    requires CanHandle(s, key, names)
  {
    match key
    case Char(c) =>
      if c == 'a' then
        Reaction(s.(addingProvider := true, currentStep := Some(SelectType)), "Select the provider type")
      else if c == 'e' then
        if s.providerCursor.Some? && s.providerCursor.value < |names| then
          var name := names[s.providerCursor.value];
          var stored := s.settings[name];
          Reaction(
            s.(editingProvider := Some(name),
               settingsInput := [OrEmpty(stored.apiKey), OrEmpty(stored.apiEntryPoint), OrEmpty(stored.apiDeployment)],
               currentStep := Some(ConfigureSettings)),
            "Edit Provider action triggered for " + name)
        else Reaction(s, info)
      else if c == 'd' then
        if s.providerCursor.Some? && s.providerCursor.value < |names| then
          var name := names[s.providerCursor.value];
          Reaction(s.(deletingProvider := Some(name)), "Delete Provider action triggered for " + name)
        else Reaction(s, info)
      else Reaction(s, info)
    case Down =>
      if s.providerCursor.Some? && s.providerCursor.value < |names| - 1
      then Reaction(s.(providerCursor := Some(s.providerCursor.value + 1)), info)
      else Reaction(s, info)
    case Up =>
      if s.providerCursor.Some? && s.providerCursor.value > 0
      then Reaction(s.(providerCursor := Some(s.providerCursor.value - 1)), info)
      else Reaction(s, info)
    case _ => Reaction(s, info)
  }

  // ---------------------------------------------------------------- properties

  /** A commit adds one fresh generated name to both maps and keeps the registry invariant. */
  lemma CommitRegistered(instances: map<string, ProviderInstance>, settings: map<string, ProviderSettings>,
                         t: ProviderType, stored: ProviderSettings)
    requires Registered(instances, settings)
    ensures var name := ProviderName(|instances| + 1);
      && name !in instances && name !in settings
      && |instances[name := ProviderInstance(name, t)]| == |instances| + 1
      && Registered(instances[name := ProviderInstance(name, t)], settings[name := stored])
  {
    FreshGeneratedName(|instances|);
    RegisteredInsert(instances, settings, ProviderInstance(ProviderName(|instances| + 1), t), stored);
  }

  /** Inserting the next generated name, under its own name, into both maps keeps them registered. */
  lemma RegisteredInsert(instances: map<string, ProviderInstance>, settings: map<string, ProviderSettings>,
                         instance: ProviderInstance, stored: ProviderSettings)
    requires Registered(instances, settings)
    requires instance.name == ProviderName(|instances| + 1) && instance.name !in instances
    ensures |instances[instance.name := instance]| == |instances| + 1
    ensures Registered(instances[instance.name := instance], settings[instance.name := stored])
  {
    var instances' := instances[instance.name := instance];
    assert instances'.Keys == GeneratedNames(|instances|) + {instance.name};
  }

  /** Every key keeps the invariant: cursors in range, field index in {0,1,2}, co-keyed maps named Provider1..N. */
  lemma TransitionPreservesInv(s: WizardState, key: Key, names: seq<string>, info: string)
    requires Inv(s) && IsEnumeration(names, s.instances.Keys) && CanHandle(s, key, names)
    ensures Inv(Transition(s, key, names, info).state)
  {
    match s.currentStep
    case Some(SelectType) => SelectTypeKeepsInv(s, key, info);
    case Some(ConfigureSettings) =>
      if key == Enter {
        CommitKeepsInv(s);
      } else {
        ConfigureKeepsInv(s, key, info);
      }
    case None => IdleKeepsInv(s, key, names, info);
  }

  lemma SelectTypeKeepsInv(s: WizardState, key: Key, info: string)
    requires Inv(s) && s.currentStep == Some(SelectType)
    ensures Inv(SelectTypeStep(s, key, info).state)
  {
    SelectTypeFrame(s, key, info);
    KeptInv(s, SelectTypeStep(s, key, info).state);
  }

  lemma ConfigureKeepsInv(s: WizardState, key: Key, info: string)
    requires Inv(s) && s.currentStep == Some(ConfigureSettings) && key != Enter
    ensures Inv(ConfigureStep(s, key, info).state)
  {
    ConfigureFrame(s, key, info);
    KeptInv(s, ConfigureStep(s, key, info).state);
  }

  lemma IdleKeepsInv(s: WizardState, key: Key, names: seq<string>, info: string)
    requires Inv(s) && s.currentStep == None && IsEnumeration(names, s.instances.Keys) && CanHandle(s, key, names)
    ensures Inv(IdleStep(s, key, names, info).state)
  {
    EnumerationLength(names, s.instances.Keys);
    IdleFrame(s, key, names, info);
    KeptInv(s, IdleStep(s, key, names, info).state);
  }

  /** A step that leaves both maps alone and keeps the form in shape keeps the invariant. */
  lemma KeptInv(s: WizardState, r: WizardState)
    requires Inv(s)
    requires r.instances == s.instances && r.settings == s.settings
    requires |r.settingsInput| == 3 && r.activeInputIndex < 3
    requires r.typeCursor.Some? ==> r.typeCursor.value < |TypeNames()|
    requires r.providerCursor.Some? ==> r.providerCursor.value == 0 || r.providerCursor.value < |r.instances|
    requires r.selectedType.Some? || (r.selectedType == s.selectedType && r.currentStep != Some(ConfigureSettings))
    ensures Inv(r)
  {
  }

  lemma SelectTypeFrame(s: WizardState, key: Key, info: string)
    requires s.currentStep == Some(SelectType)
    requires s.typeCursor.Some? ==> s.typeCursor.value < |TypeNames()|
    ensures var r := SelectTypeStep(s, key, info).state;
      && r.instances == s.instances && r.settings == s.settings
      && r.settingsInput == s.settingsInput && r.activeInputIndex == s.activeInputIndex
      && r.providerCursor == s.providerCursor
      && (r.typeCursor.Some? ==> r.typeCursor.value < |TypeNames()|)
      && (r.selectedType.Some? || (r.selectedType == s.selectedType && r.currentStep != Some(ConfigureSettings)))
  {
    if key == Enter && s.typeCursor.Some? {
      TypeNamesAgree(s.typeCursor.value);
    }
  }

  lemma ConfigureFrame(s: WizardState, key: Key, info: string)
    requires |s.settingsInput| == 3 && s.activeInputIndex < 3 && s.selectedType.Some? && key != Enter
    ensures var r := ConfigureStep(s, key, info).state;
      && r.instances == s.instances && r.settings == s.settings
      && |r.settingsInput| == 3 && r.activeInputIndex < 3
      && r.providerCursor == s.providerCursor && r.typeCursor == s.typeCursor
      && r.selectedType == s.selectedType
  {
  }

  lemma IdleFrame(s: WizardState, key: Key, names: seq<string>, info: string)
    requires s.currentStep == None && s.instances.Keys == s.settings.Keys && IsEnumeration(names, s.instances.Keys)
    requires s.providerCursor.Some? ==> s.providerCursor.value == 0 || s.providerCursor.value < |names|
    requires CanHandle(s, key, names)
    ensures var r := IdleStep(s, key, names, info).state;
      && r.instances == s.instances && r.settings == s.settings
      && (|s.settingsInput| == 3 ==> |r.settingsInput| == 3)
      && r.activeInputIndex == s.activeInputIndex && r.typeCursor == s.typeCursor
      && r.selectedType == s.selectedType
      && (r.providerCursor.Some? ==> r.providerCursor.value == 0 || r.providerCursor.value < |names|)
      && (r.currentStep == Some(ConfigureSettings) ==> |names| > 0)
  {
    match key
    case Char(c) =>
      if c == 'e' && s.providerCursor.Some? && s.providerCursor.value < |names| {
        assert |names| > 0;
      }
    case _ =>
  }

  /** The commit keeps the invariant: the fresh name extends Provider1..N to Provider1..N+1. */
  lemma CommitKeepsInv(s: WizardState)
    requires Inv(s) && s.currentStep == Some(ConfigureSettings)
    ensures Inv(Commit(s).state)
  {
    var stored := ProviderSettings(Some(s.settingsInput[0]), Some(s.settingsInput[1]), Some(s.settingsInput[2]));
    CommitRegistered(s.instances, s.settings, s.selectedType.value, stored);
  }

  /** No key ever removes or changes an existing entry: `d` only marks, and a commit uses a fresh name. */
  lemma RegistryOnlyGrows(s: WizardState, key: Key, names: seq<string>, info: string)
    requires Inv(s) && IsEnumeration(names, s.instances.Keys) && CanHandle(s, key, names)
    ensures var r := Transition(s, key, names, info).state;
      && (forall k :: k in s.instances ==> k in r.instances && r.instances[k] == s.instances[k])
      && (forall k :: k in s.settings ==> k in r.settings && r.settings[k] == s.settings[k])
  {
    var r := Transition(s, key, names, info).state;
    if s.currentStep == Some(ConfigureSettings) && key == Enter {
      CommitAddsProvider(s);
    } else {
      assert r.instances == s.instances && r.settings == s.settings by {
        match s.currentStep
        case Some(SelectType) => SelectTypeFrame(s, key, info);
        case Some(ConfigureSettings) => ConfigureFrame(s, key, info);
        case None =>
          EnumerationLength(names, s.instances.Keys);
          IdleFrame(s, key, names, info);
      }
    }
  }

  /** Tab and BackTab cycle the active field through 0, 1, 2 and change nothing else. */
  lemma ActiveFieldCycles(s: WizardState, info: string)
    requires |s.settingsInput| == 3 && s.activeInputIndex < 3 && s.selectedType.Some?
    ensures var r := ConfigureStep(s, Tab, info);
      r.state == s.(activeInputIndex := r.state.activeInputIndex) && r.info == info
      && r.state.activeInputIndex == (s.activeInputIndex + 1) % 3
    ensures var r := ConfigureStep(s, BackTab, info);
      r.state == s.(activeInputIndex := r.state.activeInputIndex) && r.info == info
      && (s.activeInputIndex == 0 ==> r.state.activeInputIndex == 2)
      && (s.activeInputIndex > 0 ==> r.state.activeInputIndex == s.activeInputIndex - 1)
  {
  }

  /** On the type list Down stops at the last type and Up at the first. */
  lemma TypeCursorClamped(s: WizardState, info: string)
    requires s.typeCursor.Some? && s.typeCursor.value < |TypeNames()|
    ensures var r := SelectTypeStep(s, Down, info).state;
      r.typeCursor.Some? && r.typeCursor.value <= 5
      && r.typeCursor.value == (if s.typeCursor.value == 5 then 5 else s.typeCursor.value + 1)
    ensures var r := SelectTypeStep(s, Up, info).state;
      r.typeCursor.Some?
      && r.typeCursor.value == (if s.typeCursor.value == 0 then 0 else s.typeCursor.value - 1)
  {
  }

  /** Enter on the type list picks the type under the cursor, by its name, and opens the form. */
  lemma EnterPicksType(s: WizardState, info: string)
    requires s.typeCursor.Some? && s.typeCursor.value < |TypeNames()|
    ensures var r := SelectTypeStep(s, Enter, info);
      && r.state == s.(selectedType := Some(TypeAtIndex(s.typeCursor.value)), currentStep := Some(ConfigureSettings))
      && r.info == "Configure the selected provider settings"
  {
    TypeNamesAgree(s.typeCursor.value);
  }

  /** A character lands on the end of the active field only; Backspace drops its last character, if any. */
  lemma TypingEditsActiveField(s: WizardState, c: char, info: string)
    requires |s.settingsInput| == 3 && s.activeInputIndex < 3 && s.selectedType.Some?
    ensures var r := ConfigureStep(s, Char(c), info).state;
      var i := s.activeInputIndex;
      && |r.settingsInput| == 3
      && r.settingsInput[i] == s.settingsInput[i] + [c]
      && (forall j :: 0 <= j < 3 && j != i ==> r.settingsInput[j] == s.settingsInput[j])
      && r == s.(settingsInput := r.settingsInput)
    ensures var r := ConfigureStep(s, Backspace, info).state;
      var i := s.activeInputIndex;
      && (s.settingsInput[i] == [] ==> r == s)
      && |r.settingsInput| == 3
      && (s.settingsInput[i] != [] ==> r.settingsInput[i] + [s.settingsInput[i][|s.settingsInput[i]| - 1]] == s.settingsInput[i])
      && (forall j :: 0 <= j < 3 && j != i ==> r.settingsInput[j] == s.settingsInput[j])
      && r == s.(settingsInput := r.settingsInput)
  {
  }

  /**
   * Enter on the form inserts `Provider<N+1>` with the chosen type and the three fields, grows the
   * registry by one, clears the fields and returns to the list -- also when the form was opened by `e`.
   */
  lemma CommitAddsProvider(s: WizardState)
    requires Registered(s.instances, s.settings) && |s.settingsInput| == 3 && s.selectedType.Some?
    ensures var r := Commit(s);
      var name := ProviderName(|s.instances| + 1);
      && name !in s.instances
      && r.state.instances == s.instances[name := ProviderInstance(name, s.selectedType.value)]
      && r.state.settings == s.settings[name := ProviderSettings(Some(s.settingsInput[0]), Some(s.settingsInput[1]), Some(s.settingsInput[2]))]
      && |r.state.instances| == |s.instances| + 1
      && r.state.settingsInput == ["", "", ""]
      && r.state.currentStep == None
      && r.state.editingProvider == s.editingProvider
      && r.info == "Provider added successfully."
  {
    var stored := ProviderSettings(Some(s.settingsInput[0]), Some(s.settingsInput[1]), Some(s.settingsInput[2]));
    CommitRegistered(s.instances, s.settings, s.selectedType.value, stored);
  }

  /** Esc on either wizard step returns to the list and clears the info line, keeping registry and fields. */
  lemma EscCancels(s: WizardState, info: string)
    requires s.typeCursor.Some? ==> s.typeCursor.value < |TypeNames()|
    ensures SelectTypeStep(s, Esc, info) == Reaction(s.(currentStep := None), "")
    ensures |s.settingsInput| == 3 && s.activeInputIndex < 3 && s.selectedType.Some? ==>
      ConfigureStep(s, Esc, info) == Reaction(s.(currentStep := None), "")
  {
  }

  /**
   * `e` on the list with the cursor on an entry seeds the fields from that entry's settings (None
   * becomes "") and opens the form; with the cursor past the end it changes nothing.
   */
  lemma EditSeedsFields(s: WizardState, names: seq<string>, info: string)
    requires s.instances.Keys == s.settings.Keys && IsEnumeration(names, s.instances.Keys)
    ensures var r := IdleStep(s, Char('e'), names, info);
      if s.providerCursor.Some? && s.providerCursor.value < |names| then
        var name := names[s.providerCursor.value];
        && name in s.settings
        && r.state == s.(editingProvider := Some(name),
                         settingsInput := [OrEmpty(s.settings[name].apiKey), OrEmpty(s.settings[name].apiEntryPoint),
                                           OrEmpty(s.settings[name].apiDeployment)],
                         currentStep := Some(ConfigureSettings))
        && r.info == "Edit Provider action triggered for " + name
      else
        r == Reaction(s, info)
  {
  }

  /** `d` only records which entry was picked; the registry is never touched. */
  lemma DeleteOnlyMarks(s: WizardState, names: seq<string>, info: string)
    requires s.instances.Keys == s.settings.Keys && IsEnumeration(names, s.instances.Keys)
    ensures var r := IdleStep(s, Char('d'), names, info);
      && r.state.instances == s.instances && r.state.settings == s.settings
      && r.state == s.(deletingProvider := r.state.deletingProvider)
      && (s.providerCursor.Some? && s.providerCursor.value < |names| ==>
            && r.state.deletingProvider == Some(names[s.providerCursor.value])
            && r.state.deletingProvider.value in s.instances
            && r.info == "Delete Provider action triggered for " + names[s.providerCursor.value])
      && (!(s.providerCursor.Some? && s.providerCursor.value < |names|) ==> r == Reaction(s, info))
  {
  }

  /** `a` on the list starts the wizard on the type list. */
  lemma AddStartsWizard(s: WizardState, names: seq<string>, info: string)
    requires s.instances.Keys == s.settings.Keys && IsEnumeration(names, s.instances.Keys)
    ensures IdleStep(s, Char('a'), names, info)
      == Reaction(s.(addingProvider := true, currentStep := Some(SelectType)), "Select the provider type")
  {
  }

  /** Up and Down on the list stay on an existing entry (or on 0 when empty) and never wrap. */
  lemma ListCursorClamped(s: WizardState, key: Key, names: seq<string>, info: string)
    requires s.instances.Keys == s.settings.Keys && IsEnumeration(names, s.instances.Keys)
    requires key == Up || key == Down
    requires CanHandle(s, key, names)
    requires s.providerCursor.Some? && (s.providerCursor.value == 0 || s.providerCursor.value < |s.instances|)
    ensures var r := IdleStep(s, key, names, info).state;
      && r.providerCursor.Some?
      && (r.providerCursor.value == 0 || r.providerCursor.value < |s.instances|)
      && (key == Down ==> r.providerCursor.value == (if s.providerCursor.value + 1 < |names| then s.providerCursor.value + 1 else s.providerCursor.value))
      && (key == Up ==> r.providerCursor.value == (if s.providerCursor.value > 0 then s.providerCursor.value - 1 else 0))
      && r == s.(providerCursor := r.providerCursor)
  {
    EnumerationLength(names, s.instances.Keys);
  }

  /** `a` then Enter from the initial state opens the form for an OpenAI provider. */
  lemma ScenarioChooseType()
    ensures
      var s1 := IdleStep(Initial(), Char('a'), [], "").state;
      && s1.currentStep == Some(SelectType)
      && SelectTypeStep(s1, Enter, "").state
         == Initial().(addingProvider := true, selectedType := Some(OpenAI), currentStep := Some(ConfigureSettings))
  {
    var s1 := IdleStep(Initial(), Char('a'), [], "").state;
    assert s1 == Initial().(addingProvider := true, currentStep := Some(SelectType));
    TypeNamesAgree(0);
  }

  /** "k1", Tab, "e1" on an empty form fills the first two fields. */
  lemma ScenarioTyping(s: WizardState)
    requires s.settingsInput == ["", "", ""] && s.activeInputIndex == 0 && s.selectedType.Some?
    ensures
      var s3 := ConfigureStep(s, Char('k'), "").state;
      var s4 := ConfigureStep(s3, Char('1'), "").state;
      var s5 := ConfigureStep(s4, Tab, "").state;
      var s6 := ConfigureStep(s5, Char('e'), "").state;
      ConfigureStep(s6, Char('1'), "").state == s.(settingsInput := ["k1", "e1", ""], activeInputIndex := 1)
  {
    var s3 := ConfigureStep(s, Char('k'), "").state;
    assert "" + ['k'] == "k";
    assert ["", "", ""][0 := "k"] == ["k", "", ""];
    assert s3 == s.(settingsInput := ["k", "", ""]);
    var s4 := ConfigureStep(s3, Char('1'), "").state;
    assert "k" + ['1'] == "k1";
    assert ["k", "", ""][0 := "k1"] == ["k1", "", ""];
    assert s4 == s.(settingsInput := ["k1", "", ""]);
    var s5 := ConfigureStep(s4, Tab, "").state;
    var s6 := ConfigureStep(s5, Char('e'), "").state;
    assert "" + ['e'] == "e";
    assert ["k1", "", ""][1 := "e"] == ["k1", "e", ""];
    assert s6 == s.(settingsInput := ["k1", "e", ""], activeInputIndex := 1);
    assert "e" + ['1'] == "e1";
    assert ["k1", "e", ""][1 := "e1"] == ["k1", "e1", ""];
  }

  /**
   * a, Enter (OpenAI), "k1", Tab, "e1", Enter from the initial state leaves exactly one entry,
   * Provider1 of type OpenAI with settings k1 / e1 / "". Each key goes to the arm of `Transition`
   * that the step of the state before it selects.
   */
  lemma AddScenario()
    ensures
      var s0 := Initial();
      var s1 := IdleStep(s0, Char('a'), [], "").state;
      var s2 := SelectTypeStep(s1, Enter, "").state;
      var s3 := ConfigureStep(s2, Char('k'), "").state;
      var s4 := ConfigureStep(s3, Char('1'), "").state;
      var s5 := ConfigureStep(s4, Tab, "").state;
      var s6 := ConfigureStep(s5, Char('e'), "").state;
      var s7 := ConfigureStep(s6, Char('1'), "").state;
      var r := ConfigureStep(s7, Enter, "");
      && s0.currentStep == None
      && s1.currentStep == Some(SelectType)
      && s7.currentStep == Some(ConfigureSettings)
      && r.state.currentStep == None
      && r.state.instances == map["Provider1" := ProviderInstance("Provider1", OpenAI)]
      && r.state.settings == map["Provider1" := ProviderSettings(Some("k1"), Some("e1"), Some(""))]
      && r.info == "Provider added successfully."
  {
    ScenarioChooseType();
    var s2 := Initial().(addingProvider := true, selectedType := Some(OpenAI), currentStep := Some(ConfigureSettings));
    ScenarioTyping(s2);
    var s7 := s2.(settingsInput := ["k1", "e1", ""], activeInputIndex := 1);
    assert Decimal.NatToString(1) == "1";
    assert ProviderName(|s7.instances| + 1) == "Provider1";
  }

  // ---------------------------------------------------------------- the view object

  class ProviderView {
    var instances: map<string, ProviderInstance>
    var settings: map<string, ProviderSettings>
    var addingProvider: bool
    var editingProvider: Option<string>
    var deletingProvider: Option<string>
    var currentStep: Option<AddProviderStep>
    const settingsInput: array<string>
    var activeInputIndex: nat
    var providerCursor: Option<nat>
    var typeCursor: Option<nat>
    var selectedProviderType: Option<ProviderType>

    function State(): WizardState
      reads this, settingsInput
    {
      WizardState(instances, settings, addingProvider, editingProvider, deletingProvider, currentStep,
                  settingsInput[..], activeInputIndex, providerCursor, typeCursor, selectedProviderType)
    }

    ghost predicate Valid()
      reads this, settingsInput
    {
      Inv(State())
    }

    constructor ()
      ensures Valid() && State() == Initial() && fresh(settingsInput)
    {
      instances := map[];
      settings := map[];
      addingProvider := false;
      editingProvider := None;
      deletingProvider := None;
      currentStep := None;
      settingsInput := new string[3](_ => "");
      activeInputIndex := 0;
      providerCursor := Some(0);
      typeCursor := Some(0);
      selectedProviderType := None;
      new;
      assert settingsInput[..] == ["", "", ""];
    }

    method HandleInput(key: Key, names: seq<string>, info: string) returns (info': string)
      requires Valid() && IsEnumeration(names, instances.Keys) && CanHandle(State(), key, names)
      modifies this, settingsInput
      ensures Valid()
      ensures Reaction(State(), info') == Transition(old(State()), key, names, info)
    {
      ghost var s := State();
      match currentStep {
        case Some(SelectType) =>
          info' := HandleSelectType(key, info);
        case Some(ConfigureSettings) =>
          info' := HandleConfigureSettings(key, info);
        case None =>
          info' := HandleIdle(key, names, info);
      }
      TransitionPreservesInv(s, key, names, info);
    }

    method HandleSelectType(key: Key, info: string) returns (info': string)
      requires currentStep == Some(SelectType)
      requires typeCursor.Some? ==> typeCursor.value < |TypeNames()|
      modifies this
      ensures Reaction(State(), info') == SelectTypeStep(old(State()), key, info)
    {
      info' := info;
      match key {
        case Down =>
          if typeCursor.Some? && typeCursor.value < |TypeNames()| - 1 {
            typeCursor := Some(typeCursor.value + 1);
          }
        case Up =>
          if typeCursor.Some? && typeCursor.value > 0 {
            typeCursor := Some(typeCursor.value - 1);
          }
        case Enter =>
          if typeCursor.Some? {
            selectedProviderType := TypeFromName(TypeNames()[typeCursor.value]);
            currentStep := Some(ConfigureSettings);
            info' := "Configure the selected provider settings";
          }
        case Esc =>
          currentStep := None;
          info' := "";
        case _ =>
      }
    }

    method HandleConfigureSettings(key: Key, info: string) returns (info': string)
      requires currentStep == Some(ConfigureSettings)
      requires settingsInput.Length == 3 && activeInputIndex < 3 && selectedProviderType.Some?
      modifies this, settingsInput
      ensures Reaction(State(), info') == ConfigureStep(old(State()), key, info)
    {
      info' := info;
      var i := activeInputIndex;
      match key {
        case Tab =>
          activeInputIndex := (activeInputIndex + 1) % 3;
        case BackTab =>
          if activeInputIndex == 0 {
            activeInputIndex := 2;
          } else {
            activeInputIndex := activeInputIndex - 1;
          }
        case Char(c) =>
          settingsInput[i] := settingsInput[i] + [c];
        case Enter =>
          info' := CommitForm();
        case Backspace =>
          if settingsInput[i] != [] {
            settingsInput[i] := settingsInput[i][..|settingsInput[i]| - 1];
          }
        case Esc =>
          currentStep := None;
          info' := "";
        case _ =>
      }
    }

    method HandleIdle(key: Key, names: seq<string>, info: string) returns (info': string)
      requires currentStep == None && settingsInput.Length == 3 && instances.Keys == settings.Keys
      requires IsEnumeration(names, instances.Keys) && CanHandle(State(), key, names)
      modifies this, settingsInput
      ensures Reaction(State(), info') == IdleStep(old(State()), key, names, info)
    {
      info' := info;
      match key {
        case Char(c) =>
          if c == 'a' {
            addingProvider := true;
            currentStep := Some(SelectType);
            info' := "Select the provider type";
          } else if c == 'e' {
            if providerCursor.Some? && providerCursor.value < |names| {
              var name := names[providerCursor.value];
              editingProvider := Some(name);
              var stored := settings[name];
              SetFields(OrEmpty(stored.apiKey), OrEmpty(stored.apiEntryPoint), OrEmpty(stored.apiDeployment));
              currentStep := Some(ConfigureSettings);
              info' := "Edit Provider action triggered for " + name;
            }
          } else if c == 'd' {
            if providerCursor.Some? && providerCursor.value < |names| {
              var name := names[providerCursor.value];
              deletingProvider := Some(name);
              info' := "Delete Provider action triggered for " + name;
            }
          }
        case Down =>
          if providerCursor.Some? && providerCursor.value < |names| - 1 {
            providerCursor := Some(providerCursor.value + 1);
          }
        case Up =>
          if providerCursor.Some? && providerCursor.value > 0 {
            providerCursor := Some(providerCursor.value - 1);
          }
        case _ =>
      }
    }

    /** Enter on the form: store the three fields under the next generated name and clear them. */
    method CommitForm() returns (info': string)
      requires settingsInput.Length == 3 && selectedProviderType.Some?
      modifies this, settingsInput
      ensures Reaction(State(), info') == Commit(old(State()))
    {
      var name := ProviderName(|instances| + 1);
      var stored := ProviderSettings(Some(settingsInput[0]), Some(settingsInput[1]), Some(settingsInput[2]));
      instances := instances[name := ProviderInstance(name, selectedProviderType.value)];
      settings := settings[name := stored];
      currentStep := None;
      info' := "Provider added successfully.";
      SetFields("", "", "");
    }

    /** Overwrite the three text fields in place. */
    method SetFields(apiKey: string, apiEntryPoint: string, apiDeployment: string)
      requires settingsInput.Length == 3
      modifies settingsInput
      ensures settingsInput[..] == [apiKey, apiEntryPoint, apiDeployment]
    {
      settingsInput[0], settingsInput[1], settingsInput[2] := apiKey, apiEntryPoint, apiDeployment;
    }
  }
}
