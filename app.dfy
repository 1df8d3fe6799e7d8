/** The public menu page (`App.jsx`): loading the menu for the current language, silent
    refreshes, the language toggle, the waiter call with its cooldown, and the category
    on display. */
module App {
  import opened Wrappers
  import opened MenuService
  import opened Toast

  /** What `menuService.getFullMenu` settles with: the menu, or the message it threw. */
  datatype Fetch = Fetched(menu: MenuResponse) | FetchFailed(message: string)

  /** How the POST of a waiter call ends. */
  datatype CallOutcome = Notified | Refused | Unreachable

  /** What the page renders. */
  datatype Screen = LoadingScreen | ErrorScreen(message: string) | MenuScreen

  /** JavaScript truthiness of a string that may be null. */
  predicate Truthy(s: Option<string>) {
    s.Some? && s.value != ""
  }

  /** The language after `toggleLanguage`: 'es' becomes 'en', anything else 'es'. */
  function Toggled(language: string): (r: string)
    ensures r == "en" <==> language == "es"
    ensures r != "en" ==> r == "es"
  {
    if language == "es" then "en" else "es"
  }

  /** Toggling twice gives back 'es' or 'en'; any other value ends at 'en'. */
  lemma ToggledTwice(language: string)
    ensures language == "es" || language == "en" ==> Toggled(Toggled(language)) == language
    ensures language != "es" && language != "en" ==> Toggled(Toggled(language)) == "en"
  {
  }

  /** The category whose code is `activeCategory`: the first such in the menu, or none. */
  function CurrentCategory(menu: Option<MenuResponse>, activeCategory: Option<string>): (r: Option<CategoryDto>)
    ensures r.Some? ==> menu.Some? && activeCategory.Some? && r.value in menu.value.categories &&
                        r.value.code == activeCategory.value
    ensures r.None? && menu.Some? && activeCategory.Some? ==>
      forall c :: c in menu.value.categories ==> c.code != activeCategory.value
  {
    if menu.None? || activeCategory.None? then None
    else FindByCode(menu.value.categories, activeCategory.value)
  }

  /** `Array.prototype.find` on the category code. */
  function FindByCode(categories: seq<CategoryDto>, code: string): (r: Option<CategoryDto>)
    ensures r.Some? ==> r.value in categories && r.value.code == code
    ensures r.Some? ==> r.value == categories[IndexByCode(categories, code)]
    ensures r.None? ==> forall c :: c in categories ==> c.code != code
  {
    if |categories| == 0 then None
    else if categories[0].code == code then Some(categories[0])
    else FindByCode(categories[1..], code)
  }

  /** The index `find` stops at: that of the first category with the code. */
  function IndexByCode(categories: seq<CategoryDto>, code: string): (i: int)
    ensures 0 <= i <= |categories|
    ensures i < |categories| ==> categories[i].code == code
    ensures forall j :: 0 <= j < i ==> categories[j].code != code
  {
    if |categories| == 0 then 0
    else if categories[0].code == code then 0
    else 1 + IndexByCode(categories[1..], code)
  }

  /** The two messages of a waiter call, in the page's language. */
  function WaiterNotice(language: string, notified: bool): string {
    if notified then
      if language == "es" then "¡Garzón notificado! Ya viene en camino 🏃" else "Waiter notified! Coming your way 🏃"
    else
      if language == "es" then "Error al llamar al garzón. Intenta de nuevo." else "Error calling waiter. Try again."
  }

  const CooldownMillis := 3000

  class AppContent {
    var menu: Option<MenuResponse>
    var loading: bool
    var error: Option<string>
    var activeCategory: Option<string>
    var language: string
    var callingWaiter: bool
    /** The time of the last successful load or refresh. */
    var lastUpdate: Option<int>
    /** Cooldown timers set by waiter calls and not yet fired. */
    var cooldowns: nat
    /** The enclosing toast provider. */
    const toasts: ToastProvider

    constructor (toasts: ToastProvider)
      ensures menu == None && loading && error == None && activeCategory == None
      ensures language == "es" && !callingWaiter && lastUpdate == None && cooldowns == 0
      ensures this.toasts == toasts
    {
      menu := None;
      loading := true;
      error := None;
      activeCategory := None;
      language := "es";
      callingWaiter := false;
      lastUpdate := None;
      cooldowns := 0;
      this.toasts := toasts;
    }

    /** What the page shows: the loading screen, the error screen, or the menu. */
    function Screen(): (s: Screen)
      reads this
      ensures s == LoadingScreen <==> loading
      ensures s.ErrorScreen? <==> !loading && Truthy(error)
    {
      if loading then LoadingScreen
      else if Truthy(error) then ErrorScreen(error.value)
      else MenuScreen
    }

    /** `loadMenu`: with the loading screen up and the error cleared, fetch the menu; on
        success keep it, stamp the time and, when no category is active yet, activate the
        first one; on failure keep the old menu and record the message. Loading always ends. */
    method LoadMenu(result: Fetch, now: int)
      modifies this
      ensures !loading
      ensures result.Fetched? ==> menu == Some(result.menu) && lastUpdate == Some(now) && error == None
      ensures result.Fetched? && |result.menu.categories| > 0 && !Truthy(old(activeCategory)) ==>
        activeCategory == Some(result.menu.categories[0].code)
      ensures result.Fetched? && (|result.menu.categories| == 0 || Truthy(old(activeCategory))) ==>
        activeCategory == old(activeCategory)
      ensures result.FetchFailed? ==>
        menu == old(menu) && lastUpdate == old(lastUpdate) && error == Some(result.message) &&
        activeCategory == old(activeCategory)
      ensures language == old(language) && callingWaiter == old(callingWaiter) && cooldowns == old(cooldowns)
    {
      loading := true;
      error := None;
      match result {
        case Fetched(data) =>
          menu := Some(data);
          lastUpdate := Some(now);
          if |data.categories| > 0 && !Truthy(activeCategory) {
            activeCategory := Some(data.categories[0].code);
          }
        case FetchFailed(message) =>
          error := Some(message);
      }
      loading := false;
    }

    /** `refreshMenuSilently`: replace the menu and stamp the time on success; a failure is
        swallowed. Neither touches the loading flag, the error or the active category. */
    method RefreshMenuSilently(result: Fetch, now: int)
      modifies this
      ensures result.Fetched? ==> menu == Some(result.menu) && lastUpdate == Some(now)
      ensures result.FetchFailed? ==> menu == old(menu) && lastUpdate == old(lastUpdate)
      ensures loading == old(loading) && error == old(error) && activeCategory == old(activeCategory)
      ensures language == old(language) && callingWaiter == old(callingWaiter) && cooldowns == old(cooldowns)
    {
      if result.Fetched? {
        menu := Some(result.menu);
        lastUpdate := Some(now);
      }
    }

    /** `toggleLanguage`. */
    method ToggleLanguage()
      modifies this
      ensures language == Toggled(old(language))
      ensures menu == old(menu) && activeCategory == old(activeCategory) && loading == old(loading)
    {
      language := Toggled(language);
    }

    /** `callWaiter`: ignored while a call is cooling down; otherwise the button is disabled,
        the request is sent, a success toast follows only an ok response and an error toast
        any other outcome, and the button comes back 3 s after the request settles. */
    method CallWaiter(outcome: CallOutcome, now: int) returns (sent: bool)
      modifies this, toasts
      ensures sent <==> !old(callingWaiter)
      ensures !sent ==> toasts.toasts == old(toasts.toasts) && cooldowns == old(cooldowns) && callingWaiter
      ensures sent ==> callingWaiter && cooldowns == old(cooldowns) + 1
      ensures sent ==> toasts.toasts == old(toasts.toasts) + [Item(now,
        WaiterNotice(language, outcome == Notified), if outcome == Notified then "success" else "error")]
      ensures language == old(language) && menu == old(menu) && activeCategory == old(activeCategory)
    {
      if callingWaiter {
        return false;
      }
      callingWaiter := true;
      if outcome == Notified {
        toasts.AddToast(WaiterNotice(language, true), Some("success"), None, now);
      } else {
        toasts.AddToast(WaiterNotice(language, false), Some("error"), None, now);
      }
      cooldowns := cooldowns + 1;
      sent := true;
    }

    /** A cooldown timer fires: the button is enabled again. */
    method CooldownElapses()
      requires cooldowns > 0
      modifies this
      ensures !callingWaiter && cooldowns == old(cooldowns) - 1
      ensures language == old(language) && menu == old(menu) && activeCategory == old(activeCategory)
    {
      callingWaiter := false;
      cooldowns := cooldowns - 1;
    }
  }

  /** A second tap during the cooldown sends nothing and shows no new toast; after the cooldown
      a tap goes through again. */
  method CooldownBlocksRepeats(app: AppContent, first: CallOutcome, now: int, later: int)
    returns (second: bool, third: bool)
    requires !app.callingWaiter && app.cooldowns == 0
    modifies app, app.toasts
    ensures !second && third
    ensures |app.toasts.toasts| == |old(app.toasts.toasts)| + 2
  {
    var sent := app.CallWaiter(first, now);
    second := app.CallWaiter(Notified, now);
    app.CooldownElapses();
    third := app.CallWaiter(Notified, later);
  }

  /** Once a category is active, reloading in another language keeps it. */
  method ActiveCategorySurvivesLanguageChange(app: AppContent, result: Fetch, now: int)
    requires Truthy(app.activeCategory)
    modifies app
    ensures app.activeCategory == old(app.activeCategory)
  {
    app.ToggleLanguage();
    app.LoadMenu(result, now);
  }
}
