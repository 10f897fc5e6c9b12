/**
 * The pre-hydration injector: a script in the document head that runs once, before the
 * application attaches. It reads the same stored mode (defaulting to `system`), resolves it with
 * the controller's rule, and primes the root class, `data-theme`, six `--auth-*` custom
 * properties, a critical dark style block and the meta theme colour. Any failure is swallowed.
 */
module ThemeScript {
  import opened Wrappers
  import opened Web
  import opened ThemeContext

  const MuiInstanceId := "mui-static-instance"

  /** The six custom properties the earliest-painted surfaces read. */
  const AuthVarNames: set<string> := {"--auth-bg-color", "--auth-border-color", "--auth-divider-bg",
                                      "--auth-divider-color", "--auth-link-color", "--auth-link-secondary"}

  /** Root inline style written for the dark scheme: the six variables plus background and text colour. */
  const DarkRootStyle: map<string, string> := map[
    "--auth-bg-color" := "#1e293b", "--auth-border-color" := "#334155",
    "--auth-divider-bg" := "#1e293b", "--auth-divider-color" := "#334155",
    "--auth-link-color" := "#3b82f6", "--auth-link-secondary" := "#cbd5e1",
    "background-color" := "#0f172a", "color" := "#f8fafc"]

  /** Root inline style written for any other scheme: the six variables only. */
  const LightRootStyle: map<string, string> := map[
    "--auth-bg-color" := "#ffffff", "--auth-border-color" := "#e2e8f0",
    "--auth-divider-bg" := "#ffffff", "--auth-divider-color" := "#e2e8f0",
    "--auth-link-color" := "#2563eb", "--auth-link-secondary" := "#64748b"]

  /** Both schemes write the same six variable names; dark adds the root background and colour. */
  lemma RootStyleNames()
    ensures LightRootStyle.Keys == AuthVarNames
    ensures DarkRootStyle.Keys == AuthVarNames + {"background-color", "color"}
  {
  }

  /** The scheme the injector paints: the stored mode or `system`, under the controller's rule. */
  function ScriptScheme(items: map<string, string>, prefersDark: bool): string
  {
    Resolve(StoredModeOr(items, "system"), true, prefersDark)
  }

  /** The scheme the controller publishes on mount: the stored mode or `light`, same rule. */
  function MountScheme(items: map<string, string>, prefersDark: bool): string
  {
    Resolve(InitialMode(items), true, prefersDark)
  }

  /**
   * The two phases paint the same scheme exactly when a mode is stored or the system prefers
   * light: the defaults differ (`system` against `light`).
   */
  lemma PhasesAgree(items: map<string, string>, prefersDark: bool)
    ensures ScriptScheme(items, prefersDark) == MountScheme(items, prefersDark)
            <==> HasStoredMode(items) || !prefersDark
  {
    if !HasStoredMode(items) {
      assert ScriptScheme(items, prefersDark) == SystemTheme(true, prefersDark);
      assert MountScheme(items, prefersDark) == "light";
    }
  }

  /** First visit under a dark system preference: the injector paints dark, the controller light. */
  lemma FirstVisitDarkDiverges()
    ensures ScriptScheme(map[], true) == "dark"
    ensures MountScheme(map[], true) == "light"
  {
  }

  /** Eight successive writes to an inline style are one merge of the written properties. */
  lemma EightWritesMerge(m: map<string, string>, k1: string, v1: string, k2: string, v2: string,
                         k3: string, v3: string, k4: string, v4: string, k5: string, v5: string,
                         k6: string, v6: string, k7: string, v7: string, k8: string, v8: string)
    ensures m[k1 := v1][k2 := v2][k3 := v3][k4 := v4][k5 := v5][k6 := v6][k7 := v7][k8 := v8]
            == m + map[k1 := v1, k2 := v2, k3 := v3, k4 := v4, k5 := v5, k6 := v6, k7 := v7, k8 := v8]
  {
  }

  /** Six successive writes to an inline style are one merge of the written properties. */
  lemma SixWritesMerge(m: map<string, string>, k1: string, v1: string, k2: string, v2: string,
                       k3: string, v3: string, k4: string, v4: string, k5: string, v5: string,
                       k6: string, v6: string)
    ensures m[k1 := v1][k2 := v2][k3 := v3][k4 := v4][k5 := v5][k6 := v6]
            == m + map[k1 := v1, k2 := v2, k3 := v3, k4 := v4, k5 := v5, k6 := v6]
  {
  }

  /** The dark branch: eight `root.style` writes, then the critical style block appended to the head. */
  method SetDarkCriticalStyle(page: Page)
    modifies page
    ensures page.rootStyle == old(page.rootStyle) + DarkRootStyle
    ensures page.headStyleIds == old(page.headStyleIds) + [CriticalStyleId]
    ensures page.rootClasses == old(page.rootClasses) && page.dataTheme == old(page.dataTheme)
    ensures page.metaThemeColor == old(page.metaThemeColor) && page.prefersDark == old(page.prefersDark)
    ensures page.muiInstanceId == old(page.muiInstanceId)
  {
    var style := page.rootStyle;
    style := style["--auth-bg-color" := "#1e293b"];
    style := style["--auth-border-color" := "#334155"];
    style := style["--auth-divider-bg" := "#1e293b"];
    style := style["--auth-divider-color" := "#334155"];
    style := style["--auth-link-color" := "#3b82f6"];
    style := style["--auth-link-secondary" := "#cbd5e1"];
    style := style["background-color" := "#0f172a"];
    style := style["color" := "#f8fafc"];
    EightWritesMerge(page.rootStyle, "--auth-bg-color", "#1e293b", "--auth-border-color", "#334155",
                     "--auth-divider-bg", "#1e293b", "--auth-divider-color", "#334155",
                     "--auth-link-color", "#3b82f6", "--auth-link-secondary", "#cbd5e1",
                     "background-color", "#0f172a", "color", "#f8fafc");
    page.rootStyle := style;
    page.headStyleIds := page.headStyleIds + [CriticalStyleId];
  }

  /** The light branch: the same six variables with their light values; no style block. */
  method SetLightCriticalStyle(page: Page)
    modifies page
    ensures page.rootStyle == old(page.rootStyle) + LightRootStyle
    ensures page.headStyleIds == old(page.headStyleIds)
    ensures page.rootClasses == old(page.rootClasses) && page.dataTheme == old(page.dataTheme)
    ensures page.metaThemeColor == old(page.metaThemeColor) && page.prefersDark == old(page.prefersDark)
    ensures page.muiInstanceId == old(page.muiInstanceId)
  {
    var style := page.rootStyle;
    style := style["--auth-bg-color" := "#ffffff"];
    style := style["--auth-border-color" := "#e2e8f0"];
    style := style["--auth-divider-bg" := "#ffffff"];
    style := style["--auth-divider-color" := "#e2e8f0"];
    style := style["--auth-link-color" := "#2563eb"];
    style := style["--auth-link-secondary" := "#64748b"];
    SixWritesMerge(page.rootStyle, "--auth-bg-color", "#ffffff", "--auth-border-color", "#e2e8f0",
                   "--auth-divider-bg", "#ffffff", "--auth-divider-color", "#e2e8f0",
                   "--auth-link-color", "#2563eb", "--auth-link-secondary", "#64748b");
    page.rootStyle := style;
  }

  /** The injector script, run once on a page. */
  method RunThemeScript(page: Page)
    modifies page
    ensures page.muiInstanceId == Some(MuiInstanceId)
    ensures page.prefersDark == old(page.prefersDark)
    ensures !page.storage.accessible ==>
              && page.rootClasses == old(page.rootClasses) && page.dataTheme == old(page.dataTheme)
              && page.rootStyle == old(page.rootStyle) && page.headStyleIds == old(page.headStyleIds)
              && page.metaThemeColor == old(page.metaThemeColor)
    ensures page.storage.accessible ==>
              var scheme := ScriptScheme(page.storage.items, page.prefersDark);
              && page.rootClasses == old(page.rootClasses) + {scheme}
              && page.dataTheme == Some(scheme)
              && page.rootStyle == old(page.rootStyle) + (if scheme == "dark" then DarkRootStyle else LightRootStyle)
              && page.headStyleIds == old(page.headStyleIds) + (if scheme == "dark" then [CriticalStyleId] else [])
              && page.metaThemeColor == (if old(page.metaThemeColor).Some? then Some(MetaColor(scheme)) else None)
  {
    page.muiInstanceId := Some(MuiInstanceId);
    if !page.storage.accessible {
      // getItem throws; the catch swallows it and nothing else is written
      return;
    }
    var stored := page.storage.GetItem(ModeKey);
    var savedMode := if stored.Some? && stored.value != "" then stored.value else "system";
    var actualTheme;
    if savedMode == "system" {
      actualTheme := if page.prefersDark then "dark" else "light";
    } else {
      actualTheme := savedMode;
    }
    page.rootClasses := page.rootClasses + {actualTheme};
    page.dataTheme := Some(actualTheme);
    if actualTheme == "dark" {
      SetDarkCriticalStyle(page);
    } else {
      SetLightCriticalStyle(page);
    }
    if page.metaThemeColor.Some? {
      page.metaThemeColor := Some(if actualTheme == "dark" then DarkMetaColor else LightMetaColor);
    }
  }

  /**
   * A controller's first commit on a page: it is created, its mount effect runs, then its apply
   * effect. It publishes the stored mode (default `light`) and its resolution, and paints the
   * root when that is a scheme.
   */
  method Start(page: Page) returns (c: ThemeController)
    requires page.storage.accessible
    modifies page
    ensures fresh(c) && c.page == page && c.isHydrated && c.Synced()
    ensures c.mode == InitialMode(page.storage.items)
    ensures c.actualTheme == Resolve(c.mode, true, page.prefersDark)
    ensures IsScheme(c.actualTheme) ==> c.Painted()
    ensures page.headStyleIds == RemoveFirst(old(page.headStyleIds), CriticalStyleId)
    ensures page.prefersDark == old(page.prefersDark)
  {
    c := new ThemeController(page);
    c.Mount();
    c.Apply();
  }

  /**
   * The hydration phase on a page the injector primed. With at most one critical style block in
   * the head, none is left; the root carries exactly the published scheme, which is the one the
   * controller reads on mount.
   */
  method Hydrate(page: Page) returns (c: ThemeController)
    requires page.storage.accessible
    requires multiset(page.headStyleIds)[CriticalStyleId] <= 1
    requires ModeKey in page.storage.items ==> IsMode(page.storage.items[ModeKey]) || page.storage.items[ModeKey] == ""
    modifies page
    ensures fresh(c) && c.page == page && c.Painted() && c.Synced()
    ensures page.rootClasses * Schemes == {c.actualTheme}
    ensures CriticalStyleId !in page.headStyleIds
    ensures c.actualTheme == MountScheme(page.storage.items, page.prefersDark)
    ensures page.prefersDark == old(page.prefersDark)
  {
    ghost var styles := page.headStyleIds;
    c := Start(page);
    RemoveFirstCount(styles, CriticalStyleId);
  }

  /**
   * The two-phase boot: the injector primes the page, then the controller hydrates. Afterwards
   * the root carries exactly the published scheme, the critical style block is gone, and the
   * published scheme is the one the injector painted exactly when a mode was stored or the
   * system prefers light.
   */
  method Boot(page: Page) returns (c: ThemeController)
    requires page.storage.accessible
    requires CriticalStyleId !in page.headStyleIds
    requires ModeKey in page.storage.items ==> IsMode(page.storage.items[ModeKey]) || page.storage.items[ModeKey] == ""
    modifies page
    ensures fresh(c) && c.page == page && c.Painted() && c.Synced()
    ensures page.rootClasses * Schemes == {c.actualTheme}
    ensures CriticalStyleId !in page.headStyleIds
    ensures c.actualTheme == ScriptScheme(page.storage.items, page.prefersDark)
            <==> HasStoredMode(page.storage.items) || !page.prefersDark
  {
    RunThemeScript(page);
    assert multiset(page.headStyleIds)[CriticalStyleId] <= 1;
    c := Hydrate(page);
    PhasesAgree(page.storage.items, page.prefersDark);
  }

  /**
   * A reload after `setMode`: a fresh controller on the same page reads back the mode and, under
   * the same system preference, publishes the same scheme.
   */
  method ReloadAfterSetMode(page: Page, m: string) returns (before: ThemeController, after: ThemeController)
    requires IsMode(m) && page.storage.accessible
    modifies page, page.storage
    ensures before.mode == m && after.mode == m && after.actualTheme == before.actualTheme
    ensures ModeKey in page.storage.items && page.storage.items[ModeKey] == m && after.Painted()
  {
    before := Start(page);
    before.SetMode(m);
    before.Apply();
    InitialModeAfterSetMode(old(page.storage.items), m);
    after := Start(page);
  }
}
