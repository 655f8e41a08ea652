/**
 * The USSD session as a value: the three pieces of state the demo keeps
 * (current screen, visited screens, reply buffer) and what each handler
 * does to them. The class in module UssdFlow is proved against these
 * functions; the lemmas here state what the handlers promise.
 */
module UssdSession {
  import opened Wrappers
  import opened UssdMenu

  /** `currentStep`, `history` and `inputValue`. */
  datatype Session = Session(currentStep: string, history: seq<string>, inputValue: string)

  /** The history is never empty and its last entry is the screen being shown. */
  predicate HistoryInvariant(s: Session) {
    |s.history| >= 1 && s.history[|s.history| - 1] == s.currentStep
  }

  /** The state a session begins in, and the one `handleReset` restores. */
  function Start(): (s: Session)
    ensures HistoryInvariant(s) && s.history == [s.currentStep] && s.inputValue == ""
  {
    Session(Entry, [Entry], "")
  }

  /**
   * `handleInput(key)`: if the current screen offers an option with this key,
   * move to its target, append the target to the history and clear the
   * reply buffer, except that End Session changes nothing.
   */
  function HandleInput(table: map<string, FlowStep>, s: Session, key: string): (r: Session)
    ensures HistoryInvariant(s) ==> HistoryInvariant(r)
    ensures r == s || (r.history == s.history + [r.currentStep] && r.inputValue == "")
    ensures r != s ==> Lookup(table, s.currentStep, key).Some?
  {
    match Lookup(table, s.currentStep, key)
    case None => s
    case Some(option) =>
      if IsEndSession(option) then s
      else Session(option.next, s.history + [option.next], "")
  }

  /** The handlers' effect when a sequence of keys is submitted one after another. */
  function Run(table: map<string, FlowStep>, s: Session, keys: seq<string>): Session
    decreases |keys|
  {
    if keys == [] then s else Run(table, HandleInput(table, s, keys[0]), keys[1..])
  }

  /** A keypad button: "*" and "#" are buffered, any other key replaces the buffer and is submitted. */
  function PressKey(table: map<string, FlowStep>, s: Session, key: string): Session {
    if key == "*" || key == "#" then s.(inputValue := s.inputValue + key)
    else HandleInput(table, s.(inputValue := key), key)
  }

  /** The Send button: submits the reply buffer when it is not empty. */
  function Send(table: map<string, FlowStep>, s: Session): Session {
    if s.inputValue != "" then HandleInput(table, s, s.inputValue) else s
  }

  /** A key matching the first option with that key, not End Session, moves to that option's target. */
  lemma OrdinaryTransition(table: map<string, FlowStep>, s: Session, key: string, i: nat)
    requires s.currentStep in table
    requires i < |table[s.currentStep].options| && table[s.currentStep].options[i].key == key
    requires forall j | 0 <= j < i :: table[s.currentStep].options[j].key != key
    requires !IsEndSession(table[s.currentStep].options[i])
    ensures var o := table[s.currentStep].options[i];
      HandleInput(table, s, key) == Session(o.next, s.history + [o.next], "")
  {
    var options := table[s.currentStep].options;
    var found := FindOption(options, key);
    var k :| 0 <= k < |options| && options[k] == found.value && options[k].key == key &&
      forall j | 0 <= j < k :: options[j].key != key;
    assert k == i;
  }

  /** The End Session option changes nothing, however often it is chosen. */
  lemma {:induction false} EndSessionIsAbsorbing(table: map<string, FlowStep>, s: Session, key: string, keys: seq<string>)
    requires Lookup(table, s.currentStep, key).Some? && IsEndSession(Lookup(table, s.currentStep, key).value)
    requires forall i | 0 <= i < |keys| :: keys[i] == key
    ensures Run(table, s, keys) == s
    decreases |keys|
  {
    if keys != [] {
      assert HandleInput(table, s, keys[0]) == s;
      EndSessionIsAbsorbing(table, s, key, keys[1..]);
    }
  }

  /** A key that no option of the current screen has, or any key on a screen the table lacks, changes nothing. */
  lemma UnmatchedInputIsNoOp(table: map<string, FlowStep>, s: Session, key: string)
    requires s.currentStep !in table ||
      forall i | 0 <= i < |table[s.currentStep].options| :: table[s.currentStep].options[i].key != key
    ensures HandleInput(table, s, key) == s
  {
  }

  /** On a screen the table does not have, no sequence of keys changes the session. */
  lemma {:induction false} DanglingScreenIsStuck(table: map<string, FlowStep>, s: Session, keys: seq<string>)
    requires s.currentStep !in table
    ensures Run(table, s, keys) == s
    decreases |keys|
  {
    if keys != [] {
      UnmatchedInputIsNoOp(table, s, keys[0]);
      DanglingScreenIsStuck(table, s, keys[1..]);
    }
  }

  /**
   * Submitting keys keeps the history invariant, only ever appends to the
   * history, and appends at most one entry per key.
   */
  lemma {:induction false} RunOnlyAppendsHistory(table: map<string, FlowStep>, s: Session, keys: seq<string>)
    requires HistoryInvariant(s)
    ensures var r := Run(table, s, keys);
      HistoryInvariant(r) && |s.history| <= |r.history| <= |s.history| + |keys| &&
      r.history[..|s.history|] == s.history
    decreases |keys|
  {
    if keys != [] {
      var t := HandleInput(table, s, keys[0]);
      RunOnlyAppendsHistory(table, t, keys[1..]);
      var r := Run(table, t, keys[1..]);
      assert t.history[..|s.history|] == s.history;
      assert r.history[..|s.history|] == r.history[..|t.history|][..|s.history|];
    }
  }

  /** With a table whose targets all exist, a session on a screen of the table stays on one. */
  lemma WellFormedKeepsScreen(table: map<string, FlowStep>, s: Session, key: string)
    requires WellFormed(table) && s.currentStep in table
    ensures HandleInput(table, s, key).currentStep in table
  {
    var found := Lookup(table, s.currentStep, key);
    if found.Some? {
      var options := table[s.currentStep].options;
      var i :| 0 <= i < |options| && options[i] == found.value;
    }
  }

  /** "*" and "#" only extend the reply buffer. */
  lemma PressKeyBuffers(table: map<string, FlowStep>, s: Session, key: string)
    requires key == "*" || key == "#"
    ensures var r := PressKey(table, s, key);
      r.currentStep == s.currentStep && r.history == s.history && r.inputValue == s.inputValue + key
  {
  }

  /**
   * Any other key is submitted at once: the screen and history change as
   * `handleInput` says, and the buffer ends up empty after a transition and
   * holding the key otherwise.
   */
  lemma PressKeySubmits(table: map<string, FlowStep>, s: Session, key: string)
    requires key != "*" && key != "#"
    ensures var r := PressKey(table, s, key);
      var moved := Lookup(table, s.currentStep, key).Some? && !IsEndSession(Lookup(table, s.currentStep, key).value);
      r.currentStep == HandleInput(table, s, key).currentStep &&
      r.history == HandleInput(table, s, key).history &&
      r.inputValue == (if moved then "" else key)
  {
  }

  /** A key that selects an End Session option only replaces the buffer with itself. */
  lemma PressKeyOnEndSession(table: map<string, FlowStep>, s: Session, key: string)
    requires key != "*" && key != "#"
    requires Lookup(table, s.currentStep, key).Some? && IsEndSession(Lookup(table, s.currentStep, key).value)
    ensures PressKey(table, s, key) == s.(inputValue := key)
  {
  }

  /** Send right after a key that is not "*" or "#" changes nothing more. */
  lemma SendAfterKeyIsNoOp(table: map<string, FlowStep>, s: Session, key: string)
    requires key != "*" && key != "#"
    ensures Send(table, PressKey(table, s, key)) == PressKey(table, s, key)
  {
    var t := s.(inputValue := key);
    var r := PressKey(table, s, key);
    if r.inputValue != "" {
      assert r == t;
    }
  }

  /** Send with an empty buffer changes nothing. */
  lemma SendEmptyIsNoOp(table: map<string, FlowStep>, s: Session)
    requires s.inputValue == ""
    ensures Send(table, s) == s
  {
  }

  // Facts about the demo's own table.

  /** From the entry screen, "1" opens Find Local Businesses. */
  lemma EntryScenario()
    ensures HandleInput(Table, Start(), "1") == Session("find-business", ["main", "find-business"], "")
  {
    OrdinaryTransition(Table, Start(), "1", 0);
  }

  /** Pressing keypad "1" on the entry screen does the same, and leaves the buffer empty. */
  lemma EntryKeypadScenario()
    ensures PressKey(Table, Start(), "1") == Session("find-business", ["main", "find-business"], "")
  {
    OrdinaryTransition(Table, Start().(inputValue := "1"), "1", 0);
  }

  /** "Send Another Message" and the opening-hours line lead back to their own screen, one history entry more. */
  lemma SelfLoopsGrowHistory(s: Session)
    requires s.currentStep == "sms-inquiry" || s.currentStep == "hours"
    ensures var r := HandleInput(Table, s, "1");
      r.currentStep == s.currentStep && r.history == s.history + [s.currentStep] && r.inputValue == ""
  {
    OrdinaryTransition(Table, s, "1", 0);
  }

  /** On the exit screen, submitting "0" (End Session) to handleInput any number of times changes nothing. */
  lemma ExitEndSessionIsAbsorbing(s: Session, keys: seq<string>)
    requires s.currentStep == "exit"
    requires forall i | 0 <= i < |keys| :: keys[i] == "0"
    ensures Run(Table, s, keys) == s
  {
    assert FindOption(ExitScreen.options, "0") == Some(ExitScreen.options[2]);
    EndSessionIsAbsorbing(Table, s, "0", keys);
  }

  /**
   * Keypad "0" on the exit screen keeps the screen and history but leaves
   * "0" in the buffer, since the key is written there before it is submitted;
   * pressing it again changes nothing more.
   */
  lemma ExitKeypadZeroKeepsScreen(s: Session)
    requires s.currentStep == "exit"
    ensures PressKey(Table, s, "0") == s.(inputValue := "0")
    ensures PressKey(Table, PressKey(Table, s, "0"), "0") == PressKey(Table, s, "0")
  {
    assert FindOption(ExitScreen.options, "0") == Some(ExitScreen.options[2]);
    PressKeyOnEndSession(Table, s, "0");
    PressKeyOnEndSession(Table, s.(inputValue := "0"), "0");
  }

  /** "Restart" on the exit screen is an ordinary transition: it appends "main" and keeps the old history, unlike reset. */
  lemma RestartIsOrdinaryTransition(s: Session)
    requires s.currentStep == "exit"
    ensures HandleInput(Table, s, "2") == Session("main", s.history + ["main"], "")
    ensures HistoryInvariant(s) ==> HandleInput(Table, s, "2") != Start()
  {
    OrdinaryTransition(Table, s, "2", 1);
  }

  /** "Register My Business" then "Start Registration" reaches a screen the table does not have. */
  lemma RegistrationPath()
    ensures var s1 := HandleInput(Table, Start(), "2");
      s1 == Session("register-business", ["main", "register-business"], "") &&
      HandleInput(Table, s1, "1") == Session("reg-start", ["main", "register-business", "reg-start"], "")
  {
    OrdinaryTransition(Table, Start(), "2", 1);
    OrdinaryTransition(Table, HandleInput(Table, Start(), "2"), "1", 0);
  }

  /** Once there, every key is ignored; only reset leaves the screen. */
  lemma RegistrationIsDeadEnd(keys: seq<string>)
    ensures var s := Session("reg-start", ["main", "register-business", "reg-start"], "");
      Run(Table, s, keys) == s
  {
    TableLacksScreens();
    DanglingScreenIsStuck(Table, Session("reg-start", ["main", "register-business", "reg-start"], ""), keys);
  }

  /** Every key of the table is one character, so Send with any other buffer length changes nothing. */
  lemma SendOfLongBufferIsNoOp(s: Session)
    requires |s.inputValue| != 1
    ensures Send(Table, s) == s
  {
    TableKeysAreSingleCharacters();
  }
}
