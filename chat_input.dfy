/**
 * The message box (`ChatInput` in src/components/ChatInput.tsx): the draft `input`, the
 * sent messages `inputHistory` (newest first, at most 50) and the browsing position
 * `historyIndex` (-1 when not browsing). Each event is one step of a state machine: the
 * steps are functions on `InputState`, and the class `ChatInput` applies them to its
 * fields as the component's setters do.
 */
module ChatInput {
  import opened Wrappers
  import opened Text
  import opened ChatTypes

  const HistoryLimit: nat := 50

  /** The keys the component reacts to; every other key is `Other`. */
  datatype Key = Enter | ArrowUp | ArrowDown | Other

  datatype InputState = InputState(input: string, history: seq<string>, index: int)

  /** The bounds every step keeps: the index is -1 or points into the history, which holds at most 50. */
  predicate InBounds(st: InputState) {
    -1 <= st.index < |st.history| <= HistoryLimit
  }

  /** `Math.min`. */
  function Min(a: int, b: int): int {
    if a <= b then a else b
  }

  /** The prompt templates offered above the box. */
  const Templates: seq<PromptTemplate> := [
    PromptTemplate("1", "Code Review", "Please review this code for best practices and potential improvements:", "Development"),
    PromptTemplate("2", "Explain Concept", "Can you explain the concept of", "Learning"),
    PromptTemplate("3", "Debug Help", "I'm encountering an error in my code. Here's the error message and relevant code:", "Development"),
    PromptTemplate("4", "Creative Writing", "Help me write a creative story about", "Creative")
  ]

  /** `[message, ...prev.slice(0, 49)]`: the message first, then the newest 49 earlier entries. */
  function Remember(history: seq<string>, message: string): (r: seq<string>)
    ensures |r| == if |history| < HistoryLimit then |history| + 1 else HistoryLimit
    ensures r[0] == message && r[1..] == history[..|r| - 1]
  {
    [message] + Prefix(history, HistoryLimit - 1)
  }

  /**
   * `handleSubmit`: a blank draft, or a submit while a reply is loading, changes nothing;
   * otherwise the trimmed draft is remembered first, browsing stops and the box empties.
   */
  function Submit(st: InputState, isLoading: bool): (r: InputState)
    requires InBounds(st)
    ensures InBounds(r)
  {
    if IsBlank(st.input) || isLoading then st
    else InputState("", Remember(st.history, Trim(st.input)), -1)
  }

  /** The message a submit hands to `sendMessage`, if any. */
  function Submitted(st: InputState, isLoading: bool): Option<string> {
    if IsBlank(st.input) || isLoading then None else Some(Trim(st.input))
  }

  /**
   * A submit changes the state exactly when it hands a message on. That message is the
   * trimmed draft: non-blank and its own trim. It becomes the newest history entry,
   * followed by the earlier entries in order, at most 50 in all; browsing stops and the
   * box is empty, so an immediate second submit sends nothing.
   */
  lemma {:induction false} SubmitRecords(st: InputState, isLoading: bool)
    requires InBounds(st)
    ensures Submitted(st, isLoading).None? ==> Submit(st, isLoading) == st
    ensures Submitted(st, isLoading).Some? <==> Submit(st, isLoading) != st
    ensures Submitted(st, isLoading).Some? ==>
      var m, r := Submitted(st, isLoading).value, Submit(st, isLoading);
      && m == Trim(st.input) && Trim(m) == m && !IsBlank(m)
      && r.input == "" && r.index == -1
      && r.history[0] == m && r.history[1..] == st.history[..|r.history| - 1]
      && |r.history| == Min(|st.history| + 1, HistoryLimit)
      && Submitted(r, isLoading).None?
  {
    assert IsBlank("") by {
      assert TrimStart("") == "";
    }
    if !IsBlank(st.input) && !isLoading {
      var m, r := Trim(st.input), Submit(st, isLoading);
      assert r == InputState("", Remember(st.history, m), -1);
      assert st.input != r.input;
      TrimIdempotent(st.input);
      assert Submitted(r, isLoading) == None;
    }
  }

  /**
   * ArrowUp: with an empty history nothing happens; otherwise one entry older, stopping
   * at the oldest, and the draft shows that entry.
   */
  function Older(st: InputState): (r: InputState)
    requires InBounds(st)
    ensures InBounds(r) && r.history == st.history
    ensures st.history == [] ==> r == st
    ensures st.history != [] ==>
      && r.index == (if st.index + 1 < |st.history| then st.index + 1 else |st.history| - 1)
      && r.input == st.history[r.index]
  {
    if st.history == [] then st
    else
      var i := Min(st.index + 1, |st.history| - 1);
      InputState(st.history[i], st.history, i)
  }

  /**
   * ArrowDown: when not browsing nothing happens; from the newest entry browsing stops
   * with an empty draft; otherwise one entry newer, and the draft shows it.
   */
  function Newer(st: InputState): (r: InputState)
    requires InBounds(st)
    ensures InBounds(r) && r.history == st.history
    ensures st.index < 0 ==> r == st
    ensures st.index >= 0 ==> r.index == st.index - 1
    ensures st.index == 0 ==> r.input == ""
    ensures st.index > 0 ==> r.input == st.history[st.index - 1]
  {
    if st.index < 0 then st
    else
      var i := st.index - 1;
      if i < 0 then InputState("", st.history, -1)
      else InputState(st.history[i], st.history, i)
  }

  /** `handleKeyDown`: Enter without Shift submits, the arrows browse, any other key does nothing here. */
  function KeyDown(st: InputState, key: Key, shift: bool, isLoading: bool): (r: InputState)
    requires InBounds(st)
    ensures InBounds(r)
    ensures key == Enter && !shift ==> r == Submit(st, isLoading)
    ensures key == Enter && shift ==> r == st
    ensures key == ArrowUp ==> r == Older(st)
    ensures key == ArrowDown ==> r == Newer(st)
    ensures key == Other ==> r == st
  {
    if key == Enter && !shift then Submit(st, isLoading)
    else if key == ArrowUp then Older(st)
    else if key == ArrowDown then Newer(st)
    else st
  }

  /** `selectTemplate`: the draft becomes the template's text; history and position stay. */
  function WithTemplate(st: InputState, template: PromptTemplate): (r: InputState)
    requires InBounds(st)
    ensures InBounds(r) && r.input == template.content && r.history == st.history && r.index == st.index
  {
    st.(input := template.content)
  }

  /** At the oldest entry, ArrowUp again changes nothing. */
  lemma {:induction false} OlderAtOldest(st: InputState)
    requires InBounds(st) && st.history != [] && Older(st).index == |st.history| - 1
    ensures Older(Older(st)) == Older(st)
  {
  }

  /** `k` presses of ArrowUp. */
  function OlderTimes(st: InputState, k: nat): (r: InputState)
    requires InBounds(st)
    ensures InBounds(r) && r.history == st.history
    decreases k
  {
    if k == 0 then st else OlderTimes(Older(st), k - 1)
  }

  /** `k` presses of ArrowDown. */
  function NewerTimes(st: InputState, k: nat): (r: InputState)
    requires InBounds(st)
    ensures InBounds(r) && r.history == st.history
    decreases k
  {
    if k == 0 then st else NewerTimes(Newer(st), k - 1)
  }

  /**
   * Pressing ArrowUp `k` times from any position reaches `k` entries further back,
   * stopping at the oldest, and shows that entry: further presses at the oldest change nothing.
   */
  lemma {:induction false} OlderTimesReaches(st: InputState, k: nat)
    requires InBounds(st) && st.history != [] && k > 0
    ensures var r := OlderTimes(st, k);
      && r.index == (if st.index + k < |st.history| then st.index + k else |st.history| - 1)
      && r.input == st.history[r.index]
    decreases k
  {
    if k > 1 {
      OlderTimesReaches(Older(st), k - 1);
    }
  }

  /** Pressing ArrowDown `k` times, no more than the position allows, steps `k` entries newer. */
  lemma {:induction false} NewerTimesReaches(st: InputState, k: nat)
    requires InBounds(st) && 0 < k <= st.index + 1
    ensures var r := NewerTimes(st, k);
      && r.index == st.index - k
      && r.input == (if r.index >= 0 then st.history[r.index] else "")
    decreases k
  {
    if k > 1 {
      NewerTimesReaches(Newer(st), k - 1);
    }
  }

  /**
   * Browsing back `k` entries from a fresh box and forward again returns to the fresh
   * position with an empty draft: the draft typed before browsing is not restored.
   */
  lemma {:induction false} UpThenDownReturns(st: InputState, k: nat)
    requires InBounds(st) && st.index == -1 && 0 < k <= |st.history|
    ensures NewerTimes(OlderTimes(st, k), k) == InputState("", st.history, -1)
  {
    OlderTimesReaches(st, k);
    NewerTimesReaches(OlderTimes(st, k), k);
  }

  /** The component's state cells and event handlers. */
  class ChatInput {
    var input: string
    var inputHistory: seq<string>
    var historyIndex: int

    function State(): InputState
      reads this
    {
      InputState(input, inputHistory, historyIndex)
    }

    ghost predicate Valid()
      reads this
    {
      InBounds(State())
    }

    /** The initial `useState` values: an empty draft, no history, not browsing. */
    constructor ()
      ensures Valid() && State() == InputState("", [], -1)
    {
      input := "";
      inputHistory := [];
      historyIndex := -1;
    }

    /** `handleSubmit`; `sent` is the message handed on to `sendMessage`, if any. */
    method HandleSubmit(isLoading: bool) returns (sent: Option<string>)
      requires Valid()
      modifies this
      ensures Valid()
      ensures State() == Submit(old(State()), isLoading)
      ensures sent == Submitted(old(State()), isLoading)
    {
      if IsBlank(input) || isLoading {
        return None;
      }
      var message := Trim(input);
      inputHistory := Remember(inputHistory, message);
      historyIndex := -1;
      input := "";
      sent := Some(message);
    }

    /** `handleKeyDown`. */
    method HandleKeyDown(key: Key, shift: bool, isLoading: bool) returns (sent: Option<string>)
      requires Valid()
      modifies this
      ensures Valid()
      ensures State() == KeyDown(old(State()), key, shift, isLoading)
      ensures sent == if key == Enter && !shift then Submitted(old(State()), isLoading) else None
    {
      sent := None;
      if key == Enter && !shift {
        sent := HandleSubmit(isLoading);
      } else if key == ArrowUp && |inputHistory| > 0 {
        var newIndex := Min(historyIndex + 1, |inputHistory| - 1);
        historyIndex := newIndex;
        input := inputHistory[newIndex];
      } else if key == ArrowDown && historyIndex >= 0 {
        var newIndex := historyIndex - 1;
        if newIndex < 0 {
          historyIndex := -1;
          input := "";
        } else {
          historyIndex := newIndex;
          input := inputHistory[newIndex];
        }
      }
    }

    /**
     * `selectTemplate`, reached only from the buttons that list the offered templates:
     * the `i`-th button fills the draft with the `i`-th template's text.
     */
    method SelectTemplate(i: nat)
      requires Valid() && i < |Templates|
      modifies this
      ensures Valid()
      ensures State() == WithTemplate(old(State()), Templates[i])
    {
      input := Templates[i].content;
    }

    /** The textarea's `onChange`: the draft becomes what was typed. */
    method Edit(text: string)
      requires Valid()
      modifies this
      ensures Valid()
      ensures State() == old(State()).(input := text)
    {
      input := text;
    }
  }
}
