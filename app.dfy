/**
 * The application shell (src/app.rs): a header with two tabs, a command line that captures
 * keys while it starts with ':', and a router that hands every other key to the active view.
 *
 * `RouteKey` says what the shell does with a key, `Apply` what that does to the shell's own
 * fields; the class `App` holds the two views and is proved to follow both.
 */
module Shell {
  import opened Wrappers
  import opened Keys
  import opened Providers
  import ContextBrowser
  import ProviderWizard

  /** The tag the header uses to highlight the active tab. */
  datatype AppView = ContextView | ProviderView

  /** The boxed views, in tab order. */
  const Views: seq<AppView> := [ContextView, ProviderView]

  /** What the shell does with one key. */
  datatype Route =
    | Push(c: char)       // append to the command line
    | ClearCommand        // run (and clear) the command line
    | NextTab
    | JumpTo(index: nat)  // the `1` and `2` shortcuts
    | Quit
    | Forward             // hand the key to the active view

  /** The shell's own fields. */
  datatype ShellState = ShellState(activeView: nat, commandInput: string, currentView: AppView)

  /** The active index names a view and the header tag agrees with it. */
  predicate ShellInv(s: ShellState)
  {
    s.activeView < |Views| && s.currentView == Views[s.activeView]
  }

  /** The arms of the key `match` in `App::run`, in their order, guards included. */
  function RouteKey(commandInput: string, key: Key): (r: Route)
    ensures key == Esc <==> r == Quit
    ensures key == Tab <==> r == NextTab
    ensures key == Char(':') ==> r == Push(':')
    ensures InCommandMode(commandInput) && key.Char? ==> r == Push(key.c)
    ensures r.Push? ==> key == Char(r.c) && (r.c == ':' || InCommandMode(commandInput))
    ensures r == ClearCommand <==> InCommandMode(commandInput) && key == Enter
    ensures r.JumpTo? <==> !InCommandMode(commandInput) && (key == Char('1') || key == Char('2'))
    ensures r.JumpTo? ==> r.index < |Views| && key == Char(if r.index == 0 then '1' else '2')
    ensures r == Forward ==>
      && key !in {Esc, Tab, Char(':'), Char('1'), Char('2')}
      && !(InCommandMode(commandInput) && (key.Char? || key == Enter))
  {
    match key
    case Char(c) =>
      if c == ':' then Push(':')
      else if InCommandMode(commandInput) then Push(c)
      else if c == '1' then JumpTo(0)
      else if c == '2' then JumpTo(1)
      else Forward
    case Enter => if InCommandMode(commandInput) then ClearCommand else Forward
    case Tab => NextTab
    case Esc => Quit
    case _ => Forward
  }

  /** The tag for an index, as the Tab arm computes it: 0 and 1 name the two views, others keep the tag. */
  function TagFor(index: nat, current: AppView): AppView
  {
    if index == 0 then ContextView else if index == 1 then ProviderView else current
  }

  /** What a route does to the shell's own fields. */
  function Apply(s: ShellState, r: Route): ShellState
    requires r.JumpTo? ==> r.index < |Views|
  {
    match r
    case Push(c) => s.(commandInput := s.commandInput + [c])
    case ClearCommand => s.(commandInput := "")
    case NextTab =>
      var i := (s.activeView + 1) % |Views|;
      s.(activeView := i, currentView := TagFor(i, s.currentView))
    case JumpTo(i) => s.(activeView := i, currentView := TagFor(i, s.currentView))
    case Quit => s
    case Forward => s
  }

  /** The shell's fields after a sequence of keys, stopping at the first Esc. */
  function RunShell(s: ShellState, keys: seq<Key>): ShellState
    decreases |keys|
  {
    if keys == [] then s
    else
      var r := RouteKey(s.commandInput, keys[0]);
      if r == Quit then s else RunShell(Apply(s, r), keys[1..])
  }

  // ---------------------------------------------------------------- properties

  /** Every key keeps the active index below the number of views and the tag in step with it. */
  lemma ApplyKeepsInv(s: ShellState, key: Key)
    requires ShellInv(s)
    ensures ShellInv(Apply(s, RouteKey(s.commandInput, key)))
  {
  }

  /** The invariant holds after any sequence of keys from `App::new`. */
  lemma {:induction false} RunKeepsInv(s: ShellState, keys: seq<Key>)
    requires ShellInv(s)
    ensures ShellInv(RunShell(s, keys))
    decreases |keys|
  {
    if keys != [] {
      var r := RouteKey(s.commandInput, keys[0]);
      if r != Quit {
        ApplyKeepsInv(s, keys[0]);
        RunKeepsInv(Apply(s, r), keys[1..]);
      }
    }
  }

  /** Tab moves to the next view modulo the number of views; two Tabs come back to the same view. */
  lemma TabCycles(s: ShellState)
    requires ShellInv(s)
    ensures var t := Apply(s, NextTab);
      && t.activeView == (s.activeView + 1) % |Views|
      && t.currentView == Views[t.activeView]
      && t.commandInput == s.commandInput
      && Apply(t, NextTab) == s
  {
  }

  /** `1` and `2` (outside a command) select the first and second view. */
  lemma DigitsJump(s: ShellState, c: char)
    requires ShellInv(s) && !InCommandMode(s.commandInput) && (c == '1' || c == '2')
    ensures var t := Apply(s, RouteKey(s.commandInput, Char(c)));
      && t.activeView == (if c == '1' then 0 else 1)
      && t.currentView == (if c == '1' then ContextView else ProviderView)
      && t.commandInput == s.commandInput
  {
  }

  /**
   * Which keys reach the active view: never Esc or Tab, never a character while a command is open,
   * never ':', '1' or '2', and Enter only outside a command. So through the shell the wizard's Tab
   * field cycling and its Esc cancels never fire, and no settings field receives ':', '1' or '2'.
   */
  lemma ForwardedKeys(commandInput: string, key: Key)
    ensures RouteKey(commandInput, key) == Forward <==>
      && key != Esc && key != Tab
      && (key.Char? ==> !InCommandMode(commandInput) && key.c !in {':', '1', '2'})
      && (key == Enter ==> !InCommandMode(commandInput))
  {
  }

  /**
   * `:` starts (or extends) a command; while the command line starts with ':' every character is
   * appended to it instead of being routed, and Enter clears it.
   */
  lemma CommandCapture(s: ShellState, key: Key)
    requires InCommandMode(s.commandInput) && (key.Char? || key == Enter)
    ensures var t := Apply(s, RouteKey(s.commandInput, key));
      && (key.Char? ==> t == s.(commandInput := s.commandInput + [key.c]) && InCommandMode(t.commandInput))
      && (key == Enter ==> t == s.(commandInput := ""))
  {
  }

  /** Once a command is started, typing keeps it a command until Enter: characters never leave command mode. */
  lemma {:induction false} CommandStaysOpen(s: ShellState, text: string)
    requires InCommandMode(s.commandInput)
    ensures var keys := seq(|text|, i requires 0 <= i < |text| => Char(text[i]));
      RunShell(s, keys) == s.(commandInput := s.commandInput + text)
    decreases |text|
  {
    var keys := seq(|text|, i requires 0 <= i < |text| => Char(text[i]));
    if text != [] {
      var t := Apply(s, RouteKey(s.commandInput, Char(text[0])));
      assert t == s.(commandInput := s.commandInput + [text[0]]);
      assert keys[1..] == seq(|text[1..]|, i requires 0 <= i < |text[1..]| => Char(text[1..][i]));
      CommandStaysOpen(t, text[1..]);
      assert s.commandInput + [text[0]] + text[1..] == s.commandInput + text;
    }
  }

  // ---------------------------------------------------------------- the shell object

  class App {
    const contextView: ContextBrowser.ContextView
    const providerView: ProviderWizard.ProviderView
    var activeView: nat
    var commandInput: string
    var infoMessage: string
    var currentView: AppView

    function Shell(): ShellState
      reads this
    {
      ShellState(activeView, commandInput, currentView)
    }

    ghost predicate Valid()
      reads this, contextView, providerView, providerView.settingsInput
    {
      ShellInv(Shell()) && contextView.Valid() && providerView.Valid()
    }

    /** `App::new`: both views fresh, the first one active, empty command and info lines. */
    constructor (read: string -> Option<string>)
      ensures Valid()
      ensures Shell() == ShellState(0, "", ContextView) && infoMessage == ""
      ensures contextView.State() == ContextBrowser.Initial(read)
      ensures providerView.State() == ProviderWizard.Initial()
      ensures fresh(contextView) && fresh(providerView) && fresh(providerView.settingsInput)
    {
      contextView := new ContextBrowser.ContextView(read);
      providerView := new ProviderWizard.ProviderView();
      activeView := 0;
      commandInput := "";
      infoMessage := "";
      currentView := ContextView;
    }

    /**
     * One pass of the `run` loop for a key: the shell handles `:`, command characters, Enter in a
     * command, Tab, `1`, `2` and Esc itself, and forwards every other key to the active view only.
     * `names` is the order in which the provider registry yields its keys.
     */
    method HandleKey(key: Key, names: seq<string>, read: string -> Option<string>) returns (quit: bool)
      requires Valid() && IsEnumeration(names, providerView.instances.Keys)
      requires RouteKey(commandInput, key) == Forward && activeView == 1 ==>
        ProviderWizard.CanHandle(providerView.State(), key, names)
      modifies this, contextView, providerView, providerView.settingsInput
      ensures Valid()
      ensures quit <==> key == Esc
      ensures Shell() == Apply(old(Shell()), RouteKey(old(commandInput), key))
      ensures RouteKey(old(commandInput), key) == Forward && old(activeView) == 0 ==>
        && contextView.State() == ContextBrowser.Step(old(contextView.State()), key, read)
        && providerView.State() == old(providerView.State())
        && infoMessage == old(infoMessage)
      ensures RouteKey(old(commandInput), key) == Forward && old(activeView) == 1 ==>
        && ProviderWizard.Reaction(providerView.State(), infoMessage)
           == ProviderWizard.Transition(old(providerView.State()), key, names, old(infoMessage))
        && contextView.State() == old(contextView.State())
      ensures RouteKey(old(commandInput), key) != Forward ==>
        && contextView.State() == old(contextView.State())
        && providerView.State() == old(providerView.State())
        && infoMessage == old(infoMessage)
    {
      quit := false;
      match key {
        case Char(c) =>
          if c == ':' {
            commandInput := commandInput + [':'];
          } else if InCommandMode(commandInput) {
            commandInput := commandInput + [c];
          } else if c == '1' {
            activeView := 0;
            currentView := ContextView;
          } else if c == '2' {
            activeView := 1;
            currentView := ProviderView;
          } else {
            Dispatch(key, names, read);
          }
        case Enter =>
          if InCommandMode(commandInput) {
            commandInput := "";
          } else {
            Dispatch(key, names, read);
          }
        case Tab =>
          activeView := (activeView + 1) % |Views|;
          currentView := TagFor(activeView, currentView);
        case Esc =>
          quit := true;
        case _ =>
          Dispatch(key, names, read);
      }
    }

    /** `self.views[self.active_view].handle_input(key, &mut self.info_message)`. */
    method Dispatch(key: Key, names: seq<string>, read: string -> Option<string>)
      requires Valid() && IsEnumeration(names, providerView.instances.Keys)
      requires activeView == 1 ==> ProviderWizard.CanHandle(providerView.State(), key, names)
      modifies contextView, providerView, providerView.settingsInput, `infoMessage
      ensures Valid()
      ensures old(activeView) == 0 ==>
        && contextView.State() == ContextBrowser.Step(old(contextView.State()), key, read)
        && providerView.State() == old(providerView.State())
        && infoMessage == old(infoMessage)
      ensures old(activeView) == 1 ==>
        && ProviderWizard.Reaction(providerView.State(), infoMessage)
           == ProviderWizard.Transition(old(providerView.State()), key, names, old(infoMessage))
        && contextView.State() == old(contextView.State())
    {
      if Views[activeView] == ContextView {
        contextView.HandleInput(key, read);
      } else {
        infoMessage := providerView.HandleInput(key, names, infoMessage);
      }
    }
  }
}
