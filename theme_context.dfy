/**
 * The theme state controller: it owns the live mode (light, dark or follow the system), the
 * scheme actually painted, and the hydration flag, and keeps the document root, the stored
 * preference and the mobile theme colour in step with them. React effects become explicit
 * method calls, made in the order the framework runs them.
 */
module ThemeContext {
  import opened Wrappers
  import opened Web

  /** The storage key of the chosen mode. */
  const ModeKey := "theme-mode"
  /** The id of the pre-hydration style block the controller removes. */
  const CriticalStyleId := "theme-critical-dark"
  const DarkMetaColor := "#1f2937"
  const LightMetaColor := "#ffffff"
  const Schemes: set<string> := {"light", "dark"}

  predicate IsMode(s: string) { s == "light" || s == "dark" || s == "system" }
  predicate IsScheme(s: string) { s == "light" || s == "dark" }

  /** `getSystemTheme`: dark exactly when a window exists and the media query matches. */
  function SystemTheme(hasWindow: bool, prefersDark: bool): (r: string)
    ensures IsScheme(r)
    ensures r == "dark" <==> hasWindow && prefersDark
  {
    if !hasWindow then "light"
    else if prefersDark then "dark" else "light"
  }

  /**
   * `calculateActualTheme`: an explicit scheme stands for itself whatever the system says;
   * `system` follows the system. Any other string passes through unchanged.
   */
  function Resolve(mode: string, hasWindow: bool, prefersDark: bool): (r: string)
    ensures IsScheme(mode) ==> r == mode
    ensures mode == "system" ==> r == SystemTheme(hasWindow, prefersDark)
    ensures IsMode(mode) ==> IsScheme(r)
    ensures mode != "system" ==> r == mode
  {
    if mode == "system" then SystemTheme(hasWindow, prefersDark) else mode
  }

  /** The stored mode when one is stored and non-empty, else `fallback` (`getItem(..) || fallback`). */
  function StoredModeOr(items: map<string, string>, fallback: string): string
  {
    if ModeKey in items && items[ModeKey] != "" then items[ModeKey] else fallback
  }

  predicate HasStoredMode(items: map<string, string>) {
    ModeKey in items && items[ModeKey] != ""
  }

  /** The mode the controller's initialisation reads: the stored one, else `light`. */
  function InitialMode(items: map<string, string>): (r: string)
    ensures HasStoredMode(items) ==> r == items[ModeKey]
    ensures !HasStoredMode(items) ==> r == "light"
    ensures (ModeKey in items ==> IsMode(items[ModeKey]) || items[ModeKey] == "") ==> IsMode(r)
  {
    StoredModeOr(items, "light")
  }

  /**
   * `classList.remove('light', 'dark')` then `classList.add(scheme)`: for a scheme, exactly one
   * scheme class remains; classes other than the two schemes and `scheme` are untouched.
   */
  function WithSchemeClass(classes: set<string>, scheme: string): (r: set<string>)
    ensures scheme in r
    ensures IsScheme(scheme) ==> r * Schemes == {scheme} && r - Schemes == classes - Schemes
    ensures forall c :: c !in Schemes && c != scheme ==> (c in r <==> c in classes)
  {
    (classes - Schemes) + {scheme}
  }

  /** Removes the first occurrence of `x`, as `getElementById(x).remove()` does; no-op without one. */
  function RemoveFirst(s: seq<string>, x: string): (r: seq<string>)
    ensures x !in s ==> r == s
    ensures x in s ==> |r| == |s| - 1
  {
    if s == [] then []
    else if s[0] == x then s[1..] else [s[0]] + RemoveFirst(s[1..], x)
  }

  /** Removing the first occurrence takes exactly one `x` out of the multiset of elements. */
  lemma {:induction false} RemoveFirstCount(s: seq<string>, x: string)
    ensures multiset(RemoveFirst(s, x)) == multiset(s) - multiset{x}
  {
    if s != [] {
      assert s == [s[0]] + s[1..];
      if s[0] != x {
        RemoveFirstCount(s[1..], x);
      }
    }
  }

  /** The meta theme colour for a scheme. */
  function MetaColor(scheme: string): string
  {
    if scheme == "dark" then DarkMetaColor else LightMetaColor
  }

  /** The mode `toggleTheme` moves to. */
  function ToggledMode(mode: string, prefersDark: bool): (r: string)
    ensures IsScheme(r)
    ensures mode == "system" ==> r != SystemTheme(true, prefersDark)
    ensures IsMode(mode) ==> Resolve(r, true, prefersDark) != Resolve(mode, true, prefersDark)
  {
    if mode == "system" then
      (if SystemTheme(true, prefersDark) == "dark" then "light" else "dark")
    else if mode == "light" then "dark" else "light"
  }

  /** Toggling twice from an explicit scheme gives it back, whatever the system says meanwhile. */
  lemma ToggleTwice(mode: string, p: bool, q: bool)
    requires IsScheme(mode)
    ensures ToggledMode(ToggledMode(mode, p), q) == mode
  {
  }

  /** A mode written by `setMode` is read back by a fresh initialisation. */
  lemma InitialModeAfterSetMode(items: map<string, string>, m: string)
    requires IsMode(m)
    ensures InitialMode(items[ModeKey := m]) == m
  {
  }

  class ThemeController {
    var mode: string
    var actualTheme: string
    var isHydrated: bool
    const page: Page

    /** The first render: `light`/`light`, not hydrated, so server and client markup agree. */
    constructor (page: Page)
      ensures this.page == page
      ensures mode == "light" && actualTheme == "light" && !isHydrated
    {
      this.page := page;
      mode := "light";
      actualTheme := "light";
      isHydrated := false;
    }

    /** Once hydrated, the published scheme is the resolution of the mode under the live preference. */
    ghost predicate Synced()
      reads this, page
    {
      isHydrated ==> actualTheme == Resolve(mode, true, page.prefersDark)
    }

    /** The root shows the published scheme: one scheme class, `data-theme`, meta colour. */
    ghost predicate Painted()
      reads this, page
    {
      && isHydrated
      && page.rootClasses * Schemes == {actualTheme}
      && page.dataTheme == Some(actualTheme)
      && (page.metaThemeColor.Some? ==> page.metaThemeColor == Some(MetaColor(actualTheme)))
    }

    /**
     * The mount effect: read the stored mode (default `light`), publish it and its resolution,
     * mark hydrated, put the scheme class and `data-theme` on the root, and remove the
     * injector's critical style block if there is one.
     */
    method Mount()
      requires !isHydrated && page.storage.accessible
      modifies this, page
      ensures isHydrated && Synced()
      ensures mode == InitialMode(page.storage.items)
      ensures actualTheme == Resolve(mode, true, page.prefersDark)
      ensures page.rootClasses == WithSchemeClass(old(page.rootClasses), actualTheme)
      ensures page.dataTheme == Some(actualTheme)
      ensures page.headStyleIds == RemoveFirst(old(page.headStyleIds), CriticalStyleId)
      ensures page.prefersDark == old(page.prefersDark) && page.rootStyle == old(page.rootStyle)
      ensures page.metaThemeColor == old(page.metaThemeColor)
      ensures page.muiInstanceId == old(page.muiInstanceId)
    {
      var stored := page.storage.GetItem(ModeKey);
      var savedMode := if stored.Some? && stored.value != "" then stored.value else "light";
      var scheme := Resolve(savedMode, true, page.prefersDark);
      mode := savedMode;
      actualTheme := scheme;
      isHydrated := true;
      ghost var before := page.rootClasses;
      page.rootClasses := page.rootClasses - {"light", "dark"};
      page.rootClasses := page.rootClasses + {scheme};
      assert page.rootClasses == WithSchemeClass(before, scheme);
      page.dataTheme := Some(scheme);
      if CriticalStyleId in page.headStyleIds {
        page.headStyleIds := RemoveFirst(page.headStyleIds, CriticalStyleId);
      }
    }

    /**
     * The media-query listener: the system switches its preference; while hydrated and in
     * `system` mode the published scheme follows it, otherwise nothing but the preference changes.
     */
    method OnSystemChange(prefersDark: bool)
      modifies this, page
      ensures page.prefersDark == prefersDark
      ensures mode == old(mode) && isHydrated == old(isHydrated)
      ensures actualTheme == if isHydrated && mode == "system"
                             then SystemTheme(true, prefersDark) else old(actualTheme)
      ensures old(Synced()) ==> Synced()
      ensures page.rootClasses == old(page.rootClasses) && page.dataTheme == old(page.dataTheme)
      ensures page.rootStyle == old(page.rootStyle) && page.headStyleIds == old(page.headStyleIds)
      ensures page.metaThemeColor == old(page.metaThemeColor)
      ensures page.muiInstanceId == old(page.muiInstanceId)
    {
      page.prefersDark := prefersDark;
      if isHydrated && mode == "system" {
        actualTheme := SystemTheme(true, page.prefersDark);
      }
    }

    /**
     * The apply effect: when hydrated, replace the scheme class, set `data-theme` and, when the
     * page has a theme-colour meta tag, its colour; before hydration it does nothing.
     */
    method Apply()
      modifies page
      ensures !isHydrated ==> page.rootClasses == old(page.rootClasses) && page.dataTheme == old(page.dataTheme)
      ensures !isHydrated ==> page.metaThemeColor == old(page.metaThemeColor)
      ensures isHydrated ==> page.rootClasses == WithSchemeClass(old(page.rootClasses), actualTheme)
      ensures isHydrated ==> page.dataTheme == Some(actualTheme)
      ensures isHydrated ==> page.metaThemeColor == if old(page.metaThemeColor).Some?
                                                   then Some(MetaColor(actualTheme)) else None
      ensures isHydrated && IsScheme(actualTheme) ==> Painted()
      ensures page.prefersDark == old(page.prefersDark) && page.rootStyle == old(page.rootStyle)
      ensures page.headStyleIds == old(page.headStyleIds) && page.muiInstanceId == old(page.muiInstanceId)
    {
      if !isHydrated {
        return;
      }
      page.rootClasses := page.rootClasses - {"light", "dark"};
      page.rootClasses := page.rootClasses + {actualTheme};
      page.dataTheme := Some(actualTheme);
      if page.metaThemeColor.Some? {
        page.metaThemeColor := Some(if actualTheme == "dark" then DarkMetaColor else LightMetaColor);
      }
    }

    /** `setMode`: publish the mode and its resolution, and store the mode. */
    method SetMode(newMode: string)
      requires IsMode(newMode) && page.storage.accessible
      modifies this, page.storage
      ensures mode == newMode && actualTheme == Resolve(newMode, true, page.prefersDark)
      ensures isHydrated == old(isHydrated) && Synced()
      ensures page.storage.items == old(page.storage.items)[ModeKey := newMode]
      ensures page.storage.accessible
    {
      mode := newMode;
      actualTheme := Resolve(newMode, true, page.prefersDark);
      var _ := page.storage.SetItem(ModeKey, newMode);
    }

    /**
     * `toggleTheme`: from `system`, the opposite of what the system prefers; from an explicit
     * scheme, the other one. The mode becomes explicit and the painted scheme always changes.
     */
    method ToggleTheme()
      requires page.storage.accessible
      modifies this, page.storage
      ensures mode == ToggledMode(old(mode), page.prefersDark) && IsScheme(mode)
      ensures actualTheme == mode && isHydrated == old(isHydrated) && Synced()
      ensures page.storage.items == old(page.storage.items)[ModeKey := mode]
      ensures old(isHydrated) && old(Synced()) && IsMode(old(mode)) ==> actualTheme != old(actualTheme)
    {
      if mode == "system" {
        var systemTheme := SystemTheme(true, page.prefersDark);
        SetMode(if systemTheme == "dark" then "light" else "dark");
      } else {
        SetMode(if mode == "light" then "dark" else "light");
      }
    }
  }

  /** `useTheme`: the controller of the enclosing provider, or the error raised outside one. */
  function UseTheme(context: Option<ThemeController>): (r: Result<ThemeController, string>)
    ensures r.Success? <==> context.Some?
    ensures context.Some? ==> r.value == context.value
    ensures context.None? ==> r.error == "useTheme must be used within a ThemeProvider"
  {
    match context
    case Some(c) => Success(c)
    case None => Failure("useTheme must be used within a ThemeProvider")
  }
}
