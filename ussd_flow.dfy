/**
 * The USSD demo component: the three state fields it updates in place and
 * its handlers, each proved to do what the matching function of module
 * UssdSession says.
 */
module UssdFlow {
  import opened Wrappers
  import opened UssdMenu
  import S = UssdSession

  class Navigator {
    /** The menu table; never changed. */
    const table: map<string, FlowStep>
    var currentStep: string
    var history: seq<string>
    var inputValue: string

    /** The fields as a session value. */
    function State(): S.Session
      reads this
    {
      S.Session(currentStep, history, inputValue)
    }

    /** The history is never empty and ends with the current screen. */
    predicate Valid()
      reads this
    {
      S.HistoryInvariant(State())
    }

    /** A fresh session on the demo's table: on "main", history ["main"], empty buffer. */
    constructor ()
      ensures table == Table
      ensures Valid() && State() == S.Start()
    {
      table := Table;
      currentStep := Entry;
      history := [Entry];
      inputValue := "";
    }

    /** `handleInput(key)`. */
    method HandleInput(key: string)
      requires Valid()
      modifies this
      ensures Valid()
      ensures State() == S.HandleInput(table, old(State()), key)
    {
      var current := Screen(table, currentStep);
      if current.None? {
        return;
      }
      var option := FindOption(current.value.options, key);
      if option.Some? {
        if IsEndSession(option.value) {
          // Stay on the exit screen; nothing changes.
          return;
        }
        history := history + [option.value.next];
        currentStep := option.value.next;
        inputValue := "";
      }
    }

    /** `handleReset()`: back to the entry screen with a one-entry history and an empty buffer. */
    method HandleReset()
      requires Valid()
      modifies this
      ensures Valid()
      ensures State() == S.Start()
    {
      currentStep := Entry;
      history := [Entry];
      inputValue := "";
    }

    /** A keypad button's `onClick`. */
    method PressKey(key: string)
      requires Valid()
      modifies this
      ensures Valid()
      ensures State() == S.PressKey(table, old(State()), key)
    {
      if key == "*" || key == "#" {
        inputValue := inputValue + key;
      } else {
        inputValue := key;
        HandleInput(key);
      }
    }

    /** The Send button's `onClick`. */
    method Send()
      requires Valid()
      modifies this
      ensures Valid()
      ensures State() == S.Send(table, old(State()))
    {
      if inputValue != "" {
        HandleInput(inputValue);
      }
    }
  }
}
