/** The accessibility settings (`AccessibilityContext.jsx`): high contrast, text size and
    reduced motion, read from browser storage at start, persisted back and mirrored into the
    class list of the document's root element whenever they change. */
module AccessibilityContext {
  const HighContrastKey := "elmacho-high-contrast"
  const FontSizeKey := "elmacho-font-size"
  const ReducedMotionKey := "elmacho-reduced-motion"

  /** The four text-size classes the effect clears before adding the current one. */
  const FontClasses: set<string> := {"font-small", "font-normal", "font-large", "font-xlarge"}

  /** `String(b)`, as `localStorage.setItem` stores a boolean. */
  function BoolText(b: bool): string {
    if b then "true" else "false"
  }

  /** The stored value under `key`: `getItem` gives null for a missing key. */
  predicate StoredTrue(storage: map<string, string>, key: string) {
    key in storage && storage[key] == "true"
  }

  /** The initial text size: the stored value unless it is missing or empty, else 'normal'. */
  function InitialFontSize(storage: map<string, string>): (r: string)
    ensures r != ""
    ensures FontSizeKey in storage && storage[FontSizeKey] != "" ==> r == storage[FontSizeKey]
    ensures !(FontSizeKey in storage && storage[FontSizeKey] != "") ==> r == "normal"
  {
    if FontSizeKey in storage && storage[FontSizeKey] != "" then storage[FontSizeKey] else "normal"
  }

  /** The root's classes after the effect: each flag's class present exactly when the flag is
      set, the four size classes replaced by the current size's class, every other class kept. */
  function AppliedClasses(classes: set<string>, highContrast: bool, fontSize: string, reducedMotion: bool): (r: set<string>)
    ensures ("high-contrast" in r <==> highContrast) && ("reduced-motion" in r <==> reducedMotion)
    ensures "font-" + fontSize in r
    ensures forall c :: c in FontClasses ==> (c in r <==> c == "font-" + fontSize)
    ensures forall c :: c !in FontClasses + {"high-contrast", "reduced-motion", "font-" + fontSize} ==>
      (c in r <==> c in classes)
  {
    assert ("font-" + fontSize)[0] == 'f';
    assert "font-" + fontSize != "reduced-motion" && "font-" + fontSize != "high-contrast";
    var withContrast := if highContrast then classes + {"high-contrast"} else classes - {"high-contrast"};
    var withFont := withContrast - FontClasses + {"font-" + fontSize};
    if reducedMotion then withFont + {"reduced-motion"} else withFont - {"reduced-motion"}
  }

  class AccessibilityProvider {
    var highContrast: bool
    var fontSize: string
    var reducedMotion: bool
    /** Browser storage. */
    var storage: map<string, string>
    /** The class list of the document's root element. */
    var classes: set<string>

    /** The lazy initial state, read from storage and from the reduced-motion media query. */
    constructor (storage: map<string, string>, prefersReducedMotion: bool, classes: set<string>)
      ensures highContrast <==> StoredTrue(storage, HighContrastKey)
      ensures fontSize == InitialFontSize(storage)
      ensures reducedMotion <==> StoredTrue(storage, ReducedMotionKey) || prefersReducedMotion
      ensures this.storage == storage && this.classes == classes
    {
      highContrast := StoredTrue(storage, HighContrastKey);
      fontSize := InitialFontSize(storage);
      reducedMotion := StoredTrue(storage, ReducedMotionKey) || prefersReducedMotion;
      this.storage := storage;
      this.classes := classes;
    }

    /** The effect run after each change of a setting: update the root's classes and persist
        all three settings. */
    method ApplySettings()
      modifies this
      ensures classes == AppliedClasses(old(classes), highContrast, fontSize, reducedMotion)
      ensures storage == old(storage)[HighContrastKey := BoolText(highContrast)]
                                     [FontSizeKey := fontSize]
                                     [ReducedMotionKey := BoolText(reducedMotion)]
      ensures highContrast == old(highContrast) && fontSize == old(fontSize) && reducedMotion == old(reducedMotion)
    {
      if highContrast {
        classes := classes + {"high-contrast"};
      } else {
        classes := classes - {"high-contrast"};
      }
      storage := storage[HighContrastKey := BoolText(highContrast)];
      classes := classes - FontClasses;
      classes := classes + {"font-" + fontSize};
      storage := storage[FontSizeKey := fontSize];
      if reducedMotion {
        classes := classes + {"reduced-motion"};
      } else {
        classes := classes - {"reduced-motion"};
      }
      storage := storage[ReducedMotionKey := BoolText(reducedMotion)];
    }

    /** `toggleHighContrast`. */
    method ToggleHighContrast()
      modifies this
      ensures highContrast == !old(highContrast)
      ensures fontSize == old(fontSize) && reducedMotion == old(reducedMotion)
      ensures storage == old(storage) && classes == old(classes)
    {
      highContrast := !highContrast;
    }

    /** `toggleReducedMotion`. */
    method ToggleReducedMotion()
      modifies this
      ensures reducedMotion == !old(reducedMotion)
      ensures highContrast == old(highContrast) && fontSize == old(fontSize)
      ensures storage == old(storage) && classes == old(classes)
    {
      reducedMotion := !reducedMotion;
    }

    /** `setFontSize`: any string is taken as it is. */
    method SetFontSize(size: string)
      modifies this
      ensures fontSize == size
      ensures highContrast == old(highContrast) && reducedMotion == old(reducedMotion)
      ensures storage == old(storage) && classes == old(classes)
    {
      fontSize := size;
    }
  }

  /** Persisted settings come back: a provider started over the storage the effect wrote has
      the same high-contrast flag and text size, and reduced motion whenever it was on. */
  method SettingsSurviveReload(storage: map<string, string>, prefersReducedMotion: bool, classes: set<string>)
    returns (before: (bool, string, bool), after: (bool, string, bool))
    ensures before.0 == after.0
    ensures before.1 != "" ==> before.1 == after.1
    ensures before.2 ==> after.2
  {
    var provider := new AccessibilityProvider(storage, prefersReducedMotion, classes);
    provider.ToggleHighContrast();
    provider.ApplySettings();
    before := (provider.highContrast, provider.fontSize, provider.reducedMotion);
    var reloaded := new AccessibilityProvider(provider.storage, false, provider.classes);
    after := (reloaded.highContrast, reloaded.fontSize, reloaded.reducedMotion);
  }

  /** Toggling a flag twice, with the effect after each change, ends where it started. */
  method ToggleTwiceRestores(provider: AccessibilityProvider) returns (contrast: bool, motion: bool)
    modifies provider
    ensures contrast == old(provider.highContrast) && motion == old(provider.reducedMotion)
  {
    provider.ToggleHighContrast();
    provider.ApplySettings();
    provider.ToggleHighContrast();
    provider.ApplySettings();
    provider.ToggleReducedMotion();
    provider.ApplySettings();
    provider.ToggleReducedMotion();
    provider.ApplySettings();
    contrast, motion := provider.highContrast, provider.reducedMotion;
  }

  /** A size class outside the four, added for a size read from storage, is never cleared:
      after moving to another size two `font-` classes are present. */
  lemma StaleSizeClassStays(classes: set<string>)
    ensures var first := AppliedClasses(classes, false, "huge", false);
            var second := AppliedClasses(first, false, "small", false);
            "font-huge" in second && "font-small" in second
  {
    var first := AppliedClasses(classes, false, "huge", false);
    assert "font-" + "huge" == "font-huge";
    assert "font-" + "small" == "font-small";
    assert "font-huge" in first;
  }
}
