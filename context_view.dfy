/**
 * The context tab (src/context_view.rs): a cursor over a fixed list of three file names and
 * the text of the file under it. Reading a file is the parameter `read`; a failed read shows
 * as the empty text (`unwrap_or_default`).
 */
module ContextBrowser {
  import opened Wrappers
  import opened Keys

  /** The context files, in display order. */
  const ContextFiles: seq<string> := ["file1.txt", "file2.txt", "file3.txt"]

  /** What the view holds: the selected index, the list widget's selection and the shown text. */
  datatype ContextState = ContextState(selected: nat, listSelection: Option<nat>, fileContent: string)

  /** The cursor is on a file and the list widget shows the same entry. */
  predicate Inv(s: ContextState)
  {
    s.selected < |ContextFiles| && s.listSelection == Some(s.selected)
  }

  /** Put the cursor on file `i` and show what reading it gives. */
  function Select(i: nat, read: string -> Option<string>): ContextState
    requires i < |ContextFiles|
  {
    ContextState(i, Some(i), OrEmpty(read(ContextFiles[i])))
  }

  /** `ContextView::new`: the first file selected and shown. */
  function Initial(read: string -> Option<string>): (s: ContextState)
    ensures Inv(s) && s.selected == 0
    ensures s.fileContent == OrEmpty(read("file1.txt"))
  {
    Select(0, read)
  }

  /** `handle_input`: Down and Up move the cursor by one within the list; every other key is ignored. */
  function Step(s: ContextState, key: Key, read: string -> Option<string>): ContextState
    requires s.selected < |ContextFiles|
  {
    match key
    case Down => if s.selected < |ContextFiles| - 1 then Select(s.selected + 1, read) else s
    case Up => if s.selected > 0 then Select(s.selected - 1, read) else s
    case _ => s
  }

  /** The state after a whole sequence of keys. */
  function Run(s: ContextState, keys: seq<Key>, read: string -> Option<string>): ContextState
    requires s.selected < |ContextFiles|
    decreases |keys|
  {
    if keys == [] then s
    else
      var t := Step(s, keys[0], read);
      assert t.selected < |ContextFiles|;
      Run(t, keys[1..], read)
  }

  // ---------------------------------------------------------------- properties

  /** One key keeps the cursor on a file and the list selection equal to it. */
  lemma StepKeepsInv(s: ContextState, key: Key, read: string -> Option<string>)
    requires Inv(s)
    ensures Inv(Step(s, key, read))
  {
  }

  /** Any sequence of keys from the initial state keeps the cursor in [0, 2] and the list in step. */
  lemma {:induction false} RunKeepsInv(s: ContextState, keys: seq<Key>, read: string -> Option<string>)
    requires Inv(s)
    ensures Inv(Run(s, keys, read))
    decreases |keys|
  {
    if keys != [] {
      StepKeepsInv(s, keys[0], read);
      RunKeepsInv(Step(s, keys[0], read), keys[1..], read);
    }
  }

  /**
   * Down moves by exactly one exactly when the cursor is above the last file, and then shows the
   * new file's text; otherwise nothing changes.
   */
  lemma DownMoves(s: ContextState, read: string -> Option<string>)
    requires Inv(s)
    ensures var r := Step(s, Down, read);
      && (r.selected == s.selected + 1 <==> s.selected < |ContextFiles| - 1)
      && (r.selected == s.selected + 1 ==> r.fileContent == OrEmpty(read(ContextFiles[r.selected])))
      && (r.selected != s.selected + 1 ==> r == s)
  {
  }

  /** Up moves back by exactly one exactly when the cursor is past the first file; otherwise nothing changes. */
  lemma UpMoves(s: ContextState, read: string -> Option<string>)
    requires Inv(s)
    ensures var r := Step(s, Up, read);
      && (r.selected + 1 == s.selected <==> s.selected > 0)
      && (r.selected + 1 == s.selected ==> r.fileContent == OrEmpty(read(ContextFiles[r.selected])))
      && (r.selected + 1 != s.selected ==> r == s)
  {
  }

  /** Keys other than Up and Down change nothing. */
  lemma OtherKeysIgnored(s: ContextState, key: Key, read: string -> Option<string>)
    requires Inv(s) && key != Up && key != Down
    ensures Step(s, key, read) == s
  {
  }

  /**
   * After any keys, the text shown is what reading the selected file gives, provided the reads
   * answer the same way throughout (one snapshot of the files).
   */
  lemma {:induction false} ContentFollowsCursor(s: ContextState, keys: seq<Key>, read: string -> Option<string>)
    requires Inv(s) && s.fileContent == OrEmpty(read(ContextFiles[s.selected]))
    ensures var r := Run(s, keys, read);
      r.selected < |ContextFiles| && r.fileContent == OrEmpty(read(ContextFiles[r.selected]))
    decreases |keys|
  {
    if keys != [] {
      var t := Step(s, keys[0], read);
      assert Inv(t) && t.fileContent == OrEmpty(read(ContextFiles[t.selected]));
      ContentFollowsCursor(t, keys[1..], read);
    }
  }

  // ---------------------------------------------------------------- the view object

  class ContextView {
    const contextFiles: seq<string>
    var selectedContext: nat
    var contextListSelection: Option<nat>
    var fileContent: string

    function State(): ContextState
      reads this
    {
      ContextState(selectedContext, contextListSelection, fileContent)
    }

    ghost predicate Valid()
      reads this
    {
      contextFiles == ContextFiles && Inv(State())
    }

    constructor (read: string -> Option<string>)
      ensures Valid() && State() == Initial(read)
    {
      contextFiles := ["file1.txt", "file2.txt", "file3.txt"];
      selectedContext := 0;
      contextListSelection := Some(0);
      fileContent := OrEmpty(read("file1.txt"));
    }

    /** `handle_input`; the info line is not touched, so it is not a parameter. */
    method HandleInput(key: Key, read: string -> Option<string>)
      requires Valid()
      modifies this
      ensures Valid()
      ensures State() == Step(old(State()), key, read)
    {
      match key {
        case Down =>
          if selectedContext < |contextFiles| - 1 {
            selectedContext := selectedContext + 1;
            contextListSelection := Some(selectedContext);
            fileContent := OrEmpty(read(contextFiles[selectedContext]));
          }
        case Up =>
          if selectedContext > 0 {
            selectedContext := selectedContext - 1;
            contextListSelection := Some(selectedContext);
            fileContent := OrEmpty(read(contextFiles[selectedContext]));
          }
        case _ =>
      }
    }
  }
}
