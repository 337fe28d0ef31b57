/** `useResponsive().value` and the system-preference effect of `useThemeMode`. */
module ThemeHooks {
  import opened Wrappers
  import opened MobxUIStore

  /** The four media-query flags `useResponsive` reads. */
  datatype Breakpoints = Breakpoints(isMobile: bool, isTablet: bool, isDesktop: bool, isLargeDesktop: bool)

  /** The argument of `value`: an optional value per screen size and a default. */
  datatype ResponsiveOptions<T> = ResponsiveOptions(
    mobile: Option<T>, tablet: Option<T>, desktop: Option<T>, largeDesktop: Option<T>, default: T)

  /** A screen size applies when its flag holds and its option is defined. */
  predicate Applies<T>(pair: (bool, Option<T>))
  {
    pair.0 && pair.1.Some?
  }

  /** Pair `i` is the first that applies. */
  predicate FirstApplies<T>(pairs: seq<(bool, Option<T>)>, i: int)
  {
    0 <= i < |pairs| && Applies(pairs[i]) && forall j :: 0 <= j < i ==> !Applies(pairs[j])
  }

  /** The first pair that applies, or the default. */
  function FirstApplicable<T>(pairs: seq<(bool, Option<T>)>, default: T): (r: T)
    ensures (forall i :: 0 <= i < |pairs| ==> !Applies(pairs[i])) ==> r == default
    ensures forall i :: FirstApplies(pairs, i) ==> r == pairs[i].1.value
  {
    if pairs == [] then default
    else if Applies(pairs[0]) then pairs[0].1.value
    else FirstApplicable(pairs[1..], default)
  }

  /** The order in which `value` consults the screen sizes. */
  function Priority<T>(b: Breakpoints, o: ResponsiveOptions<T>): seq<(bool, Option<T>)>
  {
    [(b.isLargeDesktop, o.largeDesktop), (b.isDesktop, o.desktop), (b.isTablet, o.tablet), (b.isMobile, o.mobile)]
  }

  /** `value(options)`: the if-chain over the four screen sizes. */
  function Value<T>(b: Breakpoints, o: ResponsiveOptions<T>): (r: T)
    ensures b.isLargeDesktop && o.largeDesktop.Some? ==> r == o.largeDesktop.value
    ensures r == o.default || (b.isLargeDesktop && o.largeDesktop == Some(r)) || (b.isDesktop && o.desktop == Some(r))
      || (b.isTablet && o.tablet == Some(r)) || (b.isMobile && o.mobile == Some(r))
  {
    if b.isLargeDesktop && o.largeDesktop.Some? then o.largeDesktop.value
    else if b.isDesktop && o.desktop.Some? then o.desktop.value
    else if b.isTablet && o.tablet.Some? then o.tablet.value
    else if b.isMobile && o.mobile.Some? then o.mobile.value
    else o.default
  }

  /** The if-chain is the first-applicable rule over the order largeDesktop, desktop, tablet, mobile. */
  lemma ValueIsFirstApplicable<T>(b: Breakpoints, o: ResponsiveOptions<T>)
    ensures Value(b, o) == FirstApplicable(Priority(b, o), o.default)
  {
    var ps := Priority(b, o);
    assert ps[1..] == [ps[1], ps[2], ps[3]];
    assert ps[1..][1..] == [ps[2], ps[3]];
    assert ps[1..][1..][1..] == [ps[3]];
    assert ps[1..][1..][1..][1..] == [];
  }

  /** An option left undefined is passed over even when its screen size applies. */
  lemma UndefinedOptionSkipped<T>(b: Breakpoints, o: ResponsiveOptions<T>)
    requires b.isLargeDesktop && o.largeDesktop.None?
    ensures Value(b, o) == Value(b.(isLargeDesktop := false), o)
  {
  }

  /** With no flag set, or no option given, the default is returned. */
  lemma NothingApplies<T>(b: Breakpoints, o: ResponsiveOptions<T>)
    requires (!b.isLargeDesktop || o.largeDesktop.None?) && (!b.isDesktop || o.desktop.None?)
    requires (!b.isTablet || o.tablet.None?) && (!b.isMobile || o.mobile.None?)
    ensures Value(b, o) == o.default
  {
  }

  /** The theme and the stored settings the effect of `useThemeMode` works on. */
  datatype ThemeState = ThemeState(isDarkMode: bool, storage: map<string, string>)

  /**
   * One run of the effect as written: with no saved 'darkMode', the system
   * preference is applied through `setDarkMode`, which also saves it.
   */
  function EffectAsWritten(s: ThemeState, prefersDark: bool): (r: ThemeState)
    ensures DarkModeKey in s.storage ==> r == s
    ensures DarkModeKey !in s.storage ==> r.isDarkMode == prefersDark && r.storage == s.storage[DarkModeKey := BoolText(prefersDark)]
  {
    if DarkModeKey !in s.storage then ThemeState(prefersDark, s.storage[DarkModeKey := BoolText(prefersDark)]) else s
  }

  /**
   * As written, the effect follows the system only once: the first run saves
   * the preference, so a later change of the system theme is ignored.
   */
  lemma AsWrittenIgnoresLaterChange()
    ensures var s := EffectAsWritten(ThemeState(false, map[]), true);
      EffectAsWritten(s, false).isDarkMode == true
  {
  }

  /** The effect as its comment describes it: follow the system while nothing is saved, and save nothing. */
  function EffectFollowing(s: ThemeState, prefersDark: bool): (r: ThemeState)
    ensures r.storage == s.storage
    ensures DarkModeKey in s.storage ==> r == s
    ensures DarkModeKey !in s.storage ==> r.isDarkMode == prefersDark
  {
    if DarkModeKey !in s.storage then s.(isDarkMode := prefersDark) else s
  }

  /** The effect run over a series of system preference changes, oldest first. */
  function RunFollowing(s: ThemeState, changes: seq<bool>): ThemeState
    decreases |changes|
  {
    if changes == [] then s else RunFollowing(EffectFollowing(s, changes[0]), changes[1..])
  }

  /** With nothing saved, the theme is always the latest system preference, and storage is left alone. */
  lemma {:induction false} FollowingTracksLatest(s: ThemeState, changes: seq<bool>)
    requires DarkModeKey !in s.storage && changes != []
    ensures RunFollowing(s, changes).isDarkMode == changes[|changes| - 1]
    ensures RunFollowing(s, changes).storage == s.storage
    decreases |changes|
  {
    var t := EffectFollowing(s, changes[0]);
    if |changes| > 1 {
      FollowingTracksLatest(t, changes[1..]);
    }
  }

  /** A saved 'darkMode' always wins, as written and as corrected. */
  lemma {:induction false} SavedSettingWins(s: ThemeState, changes: seq<bool>)
    requires DarkModeKey in s.storage
    ensures RunFollowing(s, changes) == s
    decreases |changes|
  {
    if changes != [] {
      SavedSettingWins(EffectFollowing(s, changes[0]), changes[1..]);
    }
  }

  /** The effect as written, run against the store. */
  method ThemeModeEffectAsWritten(ui: UIStore, prefersDark: bool)
    modifies ui`isDarkMode, ui`storage
    ensures ThemeState(ui.isDarkMode, ui.storage) == EffectAsWritten(ThemeState(old(ui.isDarkMode), old(ui.storage)), prefersDark)
  {
    if DarkModeKey !in ui.storage {
      ui.SetDarkMode(prefersDark);
    }
  }

  /** The corrected effect, run against the store: it sets the theme without saving it. */
  method ThemeModeEffect(ui: UIStore, prefersDark: bool)
    modifies ui`isDarkMode
    ensures ThemeState(ui.isDarkMode, ui.storage) == EffectFollowing(ThemeState(old(ui.isDarkMode), ui.storage), prefersDark)
  {
    if DarkModeKey !in ui.storage {
      ui.isDarkMode := prefersDark;
    }
  }
}
