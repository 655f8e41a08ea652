/**
 * The USSD menu graph: a fixed table from screen id to a screen with a
 * title and an ordered list of keyed options, and the lookup that the
 * navigator performs on it (`ussdFlow[currentStep]?.options.find(...)`).
 * The table is plain data: nothing checks that an option's `next` names
 * a screen of the table, and several do not.
 */
module UssdMenu {
  import opened Wrappers

  /** One entry of a screen's option list: the key to press, the label, the target screen id. */
  datatype MenuOption = MenuOption(key: string, text: string, next: string)

  /** A screen of the menu (the `backTo` field is never read and is not modelled). */
  datatype FlowStep = FlowStep(id: string, title: string, options: seq<MenuOption>)

  /** The screen every session starts on and that reset returns to. */
  const Entry: string := "main"

  /** The option that, when chosen, leaves the session exactly where it is. */
  predicate IsEndSession(o: MenuOption) {
    o.next == "exit" && o.text == "End Session"
  }

  /** Every option of every screen names a screen the table has. */
  ghost predicate WellFormed(table: map<string, FlowStep>) {
    forall id, i | id in table && 0 <= i < |table[id].options| :: table[id].options[i].next in table
  }

  /** `options.find(opt => opt.key === key)`: the first option whose key is exactly `key`. */
  function FindOption(options: seq<MenuOption>, key: string): (r: Option<MenuOption>)
    ensures r.None? <==> forall i | 0 <= i < |options| :: options[i].key != key
    ensures r.Some? ==> exists i | 0 <= i < |options| ::
      options[i] == r.value && options[i].key == key &&
      forall j | 0 <= j < i :: options[j].key != key
  {
    if options == [] then None
    else if options[0].key == key then Some(options[0])
    else
      var r := FindOption(options[1..], key);
      assert forall i | 1 <= i < |options| :: options[i] == options[1..][i - 1];
      if r.Some? then
        var i :| 0 <= i < |options[1..]| && options[1..][i] == r.value && options[1..][i].key == key &&
          forall j | 0 <= j < i :: options[1..][j].key != key;
        assert options[i + 1] == r.value && forall j | 0 <= j < i + 1 :: options[j].key != key;
        r
      else r
  }

  /** `ussdFlow[id]`: the screen shown for `id`, if the table has one. */
  function Screen(table: map<string, FlowStep>, id: string): Option<FlowStep> {
    if id in table then Some(table[id]) else None
  }

  /** `ussdFlow[step]?.options.find(opt => opt.key === key)`. */
  function Lookup(table: map<string, FlowStep>, step: string, key: string): (r: Option<MenuOption>)
    ensures r.Some? ==> step in table && r.value in table[step].options && r.value.key == key
    ensures r.None? <==> step !in table || forall o | o in table[step].options :: o.key != key
  {
    match Screen(table, step)
    case None => None
    case Some(screen) => FindOption(screen.options, key)
  }

  /** The screens of the demo, as the source lists them. */
  const MainScreen: FlowStep := FlowStep("main", "Welcome to SME Connect", [
    MenuOption("1", "Find Local Businesses", "find-business"),
    MenuOption("2", "Register My Business", "register-business"),
    MenuOption("3", "SMS Promotions", "sms-promo"),
    MenuOption("0", "Exit", "exit")])
  const FindBusinessScreen: FlowStep := FlowStep("find-business", "Find Local Businesses", [
    MenuOption("1", "Auto Repair", "auto-results"),
    MenuOption("2", "Restaurants", "restaurant-results"),
    MenuOption("3", "Hair Salons", "salon-results"),
    MenuOption("4", "Groceries", "grocery-results"),
    MenuOption("9", "Back to Main Menu", "main"),
    MenuOption("0", "Exit", "exit")])
  const AutoResultsScreen: FlowStep := FlowStep("auto-results", "Auto Repair Services", [
    MenuOption("1", "Thabo's Auto Repair (0.8km)", "thabo-details"),
    MenuOption("2", "Quick Fix Garage (1.2km)", "quickfix-details"),
    MenuOption("3", "Pro Auto Service (2.1km)", "pro-details"),
    MenuOption("9", "Back to Categories", "find-business"),
    MenuOption("0", "Exit", "exit")])
  const ThaboDetailsScreen: FlowStep := FlowStep("thabo-details", "Thabo's Auto Repair", [
    MenuOption("1", "Call: 011 123 4567", "call-action"),
    MenuOption("2", "Send SMS Inquiry", "sms-inquiry"),
    MenuOption("3", "Get Directions", "directions"),
    MenuOption("4", "Business Hours", "hours"),
    MenuOption("9", "Back to Results", "auto-results"),
    MenuOption("0", "Exit", "exit")])
  const RestaurantResultsScreen: FlowStep := FlowStep("restaurant-results", "Restaurants Near You", [
    MenuOption("1", "Mama Zulu's Kitchen (1.2km)", "zulu-details"),
    MenuOption("2", "Braai Junction (0.9km)", "braai-details"),
    MenuOption("3", "Spice Route (1.8km)", "spice-details"),
    MenuOption("9", "Back to Categories", "find-business"),
    MenuOption("0", "Exit", "exit")])
  const SalonResultsScreen: FlowStep := FlowStep("salon-results", "Hair Salons Near You", [
    MenuOption("1", "Style & Grace (0.5km)", "style-details"),
    MenuOption("2", "Crown Beauty (1.1km)", "crown-details"),
    MenuOption("3", "Trendy Cuts (1.4km)", "trendy-details"),
    MenuOption("9", "Back to Categories", "find-business"),
    MenuOption("0", "Exit", "exit")])
  const GroceryResultsScreen: FlowStep := FlowStep("grocery-results", "Grocery Stores Near You", [
    MenuOption("1", "Fresh Market (2.1km)", "fresh-details"),
    MenuOption("2", "Corner Shop (0.3km)", "corner-details"),
    MenuOption("3", "Super Save (1.7km)", "super-details"),
    MenuOption("9", "Back to Categories", "find-business"),
    MenuOption("0", "Exit", "exit")])
  const RegisterBusinessScreen: FlowStep := FlowStep("register-business", "Register Your Business", [
    MenuOption("1", "Start Registration", "reg-start"),
    MenuOption("2", "Update Existing Profile", "reg-update"),
    MenuOption("3", "Help & Support", "reg-help"),
    MenuOption("9", "Back to Main Menu", "main"),
    MenuOption("0", "Exit", "exit")])
  const SmsPromoScreen: FlowStep := FlowStep("sms-promo", "SMS Promotions", [
    MenuOption("1", "Subscribe to Updates", "sms-subscribe"),
    MenuOption("2", "View Current Offers", "sms-offers"),
    MenuOption("3", "Unsubscribe", "sms-unsub"),
    MenuOption("9", "Back to Main Menu", "main"),
    MenuOption("0", "Exit", "exit")])
  const CallActionScreen: FlowStep := FlowStep("call-action", "Calling Business...", [
    MenuOption("1", "Call Initiated", "thabo-details"),
    MenuOption("9", "Back to Business", "thabo-details"),
    MenuOption("0", "Exit", "exit")])
  const SmsInquiryScreen: FlowStep := FlowStep("sms-inquiry", "SMS Sent Successfully", [
    MenuOption("1", "Send Another Message", "sms-inquiry"),
    MenuOption("2", "Call Instead", "call-action"),
    MenuOption("9", "Back to Business", "thabo-details"),
    MenuOption("0", "Exit", "exit")])
  const DirectionsScreen: FlowStep := FlowStep("directions", "Directions to Business", [
    MenuOption("1", "Get SMS with Directions", "directions-sms"),
    MenuOption("2", "Call for Directions", "call-action"),
    MenuOption("9", "Back to Business", "thabo-details"),
    MenuOption("0", "Exit", "exit")])
  const HoursScreen: FlowStep := FlowStep("hours", "Business Hours", [
    MenuOption("1", "Mon-Fri: 8AM-6PM, Sat: 8AM-4PM", "hours"),
    MenuOption("2", "Call for Appointment", "call-action"),
    MenuOption("9", "Back to Business", "thabo-details"),
    MenuOption("0", "Exit", "exit")])
  const ExitScreen: FlowStep := FlowStep("exit", "Thank You!", [
    MenuOption("1", "Visit our website for more", "main"),
    MenuOption("2", "Restart", "main"),
    MenuOption("0", "End Session", "exit")])

  /** The menu table of the demo: each screen under its id. */
  const Table: map<string, FlowStep> := map[
    "main" := MainScreen,
    "find-business" := FindBusinessScreen,
    "auto-results" := AutoResultsScreen,
    "thabo-details" := ThaboDetailsScreen,
    "restaurant-results" := RestaurantResultsScreen,
    "salon-results" := SalonResultsScreen,
    "grocery-results" := GroceryResultsScreen,
    "register-business" := RegisterBusinessScreen,
    "sms-promo" := SmsPromoScreen,
    "call-action" := CallActionScreen,
    "sms-inquiry" := SmsInquiryScreen,
    "directions" := DirectionsScreen,
    "hours" := HoursScreen,
    "exit" := ExitScreen
  ]

  /** The ids the table has. */
  const ScreenIds: set<string> := {"main", "find-business", "auto-results", "thabo-details", "restaurant-results", "salon-results", "grocery-results", "register-business", "sms-promo", "call-action", "sms-inquiry", "directions", "hours", "exit"}

  /** The screens the table holds. */
  const Screens: set<FlowStep> := {MainScreen, FindBusinessScreen, AutoResultsScreen, ThaboDetailsScreen, RestaurantResultsScreen, SalonResultsScreen, GroceryResultsScreen, RegisterBusinessScreen, SmsPromoScreen, CallActionScreen, SmsInquiryScreen, DirectionsScreen, HoursScreen, ExitScreen}

  lemma TableShape()
    ensures Table.Keys == ScreenIds && Table.Values == Screens
  {
  }

  /** Every screen of the table is stored under its own id, and the entry screen is present. */
  lemma TableIdsMatchKeys()
    ensures Entry in Table
    ensures forall id | id in Table :: Table[id].id == id
  {
  }

  /** Every key a screen offers is a single character. */
  predicate SingleCharacterKeys(screen: FlowStep) {
    forall i | 0 <= i < |screen.options| :: |screen.options[i].key| == 1
  }

  lemma ScreensHaveSingleCharacterKeys()
    ensures forall s | s in Screens :: SingleCharacterKeys(s)
  {
    assert SingleCharacterKeys(MainScreen);
    assert SingleCharacterKeys(FindBusinessScreen);
    assert SingleCharacterKeys(AutoResultsScreen);
    assert SingleCharacterKeys(ThaboDetailsScreen);
    assert SingleCharacterKeys(RestaurantResultsScreen);
    assert SingleCharacterKeys(SalonResultsScreen);
    assert SingleCharacterKeys(GroceryResultsScreen);
    assert SingleCharacterKeys(RegisterBusinessScreen);
    assert SingleCharacterKeys(SmsPromoScreen);
    assert SingleCharacterKeys(CallActionScreen);
    assert SingleCharacterKeys(SmsInquiryScreen);
    assert SingleCharacterKeys(DirectionsScreen);
    assert SingleCharacterKeys(HoursScreen);
    assert SingleCharacterKeys(ExitScreen);
  }

  lemma TableKeysAreSingleCharacters()
    ensures forall id | id in Table :: SingleCharacterKeys(Table[id])
  {
    TableShape();
    ScreensHaveSingleCharacterKeys();
  }

  /** Three of the targets the table names have no screen of their own. */
  lemma TableLacksScreens()
    ensures "reg-start" !in Table && "quickfix-details" !in Table && "directions-sms" !in Table
  {
    TableShape();
  }

  /** The table is not well formed: "Start Registration" leads to a screen it does not have. */
  lemma TableHasDanglingTargets()
    ensures !WellFormed(Table)
    ensures Table["register-business"].options[0] == MenuOption("1", "Start Registration", "reg-start")
    ensures Table["auto-results"].options[1].next == "quickfix-details"
    ensures Table["directions"].options[0].next == "directions-sms"
  {
    TableLacksScreens();
    assert Table["register-business"].options[0].next !in Table;
  }

  /** No option of a screen is an End Session no-op. */
  predicate NoEndSession(screen: FlowStep) {
    forall i | 0 <= i < |screen.options| :: !IsEndSession(screen.options[i])
  }

  /** The only End Session option of the table is key "0", the last option of the exit screen. */
  lemma TableEndSessionIsUnique()
    ensures forall id | id in Table && id != "exit" :: NoEndSession(Table[id])
    ensures Table["exit"].options[2] == MenuOption("0", "End Session", "exit")
    ensures !IsEndSession(Table["exit"].options[0]) && !IsEndSession(Table["exit"].options[1])
  {
    TableShape();
    forall id | id in Table && id != "exit" ensures NoEndSession(Table[id]) {
      assert Table[id] in Screens - {ExitScreen};
      OrdinaryScreensHaveNoEndSession();
    }
  }

  lemma OrdinaryScreensHaveNoEndSession()
    ensures forall s | s in Screens - {ExitScreen} :: NoEndSession(s)
  {
    assert NoEndSession(MainScreen);
    assert NoEndSession(FindBusinessScreen);
    assert NoEndSession(AutoResultsScreen);
    assert NoEndSession(ThaboDetailsScreen);
    assert NoEndSession(RestaurantResultsScreen);
    assert NoEndSession(SalonResultsScreen);
    assert NoEndSession(GroceryResultsScreen);
    assert NoEndSession(RegisterBusinessScreen);
    assert NoEndSession(SmsPromoScreen);
    assert NoEndSession(CallActionScreen);
    assert NoEndSession(SmsInquiryScreen);
    assert NoEndSession(DirectionsScreen);
    assert NoEndSession(HoursScreen);
  }
}
