/** The Emerald dock's routing logic: the table of tabs, the tab an
    overlay highlights for the current path, and the tab bar's press
    guard. */
module Dock {
  import opened Wrappers

  datatype TabRoute = TabRoute(name: string, title: string, href: string)

  /** `TABS`. */
  const Tabs: seq<TabRoute> := [
    TabRoute("index", "Home", "/(tabs)"),
    TabRoute("calendar", "Calendar", "/(tabs)/calendar"),
    TabRoute("sparks", "Sparks", "/(tabs)/sparks"),
    TabRoute("ledger", "Ledger", "/(tabs)/ledger")
  ]

  /** `s.startsWith(prefix)`. */
  predicate StartsWith(s: string, prefix: string) {
    |prefix| <= |s| && s[..|prefix|] == prefix
  }

  /** `tabs.findIndex(t => path.startsWith(t.href))`, searching from `k`. */
  function FindPrefixFrom(tabs: seq<TabRoute>, path: string, k: nat): (r: int)
    requires k <= |tabs|
    ensures r == -1 || k <= r < |tabs|
    ensures r >= 0 ==> StartsWith(path, tabs[r].href)
    ensures r >= 0 ==> forall j :: k <= j < r ==> !StartsWith(path, tabs[j].href)
    ensures r == -1 ==> forall j :: k <= j < |tabs| ==> !StartsWith(path, tabs[j].href)
    decreases |tabs| - k
  {
    if k == |tabs| then -1
    else if StartsWith(path, tabs[k].href) then k
    else FindPrefixFrom(tabs, path, k + 1)
  }

  /** The overlay's active index: the first tab whose href starts the
      path, or 0 when none does or there is no path. */
  function ActiveIndex(pathname: Option<string>): (r: nat)
    ensures r < |Tabs|
  {
    var idx := if pathname.None? then -1 else FindPrefixFrom(Tabs, pathname.value, 0);
    if idx >= 0 then idx else 0
  }

  /** The first href starts every href in the table. */
  lemma FirstHrefStartsAll(i: nat)
    requires i < |Tabs|
    ensures StartsWith(Tabs[i].href, Tabs[0].href)
  {
  }

  lemma StartsWithTransitive(s: string, p: string, q: string)
    requires StartsWith(s, p) && StartsWith(p, q)
    ensures StartsWith(s, q)
  {
    assert s[..|q|] == s[..|p|][..|q|];
  }

  /** Because "/(tabs)" starts every other href, the overlay highlights
      the first tab for every path: a path under any tab also starts with
      the first href, and a path under none falls back to 0. */
  lemma ActiveIndexAlwaysFirst(pathname: Option<string>)
    ensures ActiveIndex(pathname) == 0
  {
    if pathname.Some? {
      var path := pathname.value;
      var idx := FindPrefixFrom(Tabs, path, 0);
      if idx > 0 {
        FirstHrefStartsAll(idx);
        StartsWithTransitive(path, Tabs[idx].href, Tabs[0].href);
        assert false;
      }
    }
  }

  /** The tab bar's `onPress(i)`: pressing the focused tab does nothing,
      any other tab navigates to its route's name. */
  function TabPress(focused: int, i: nat, routes: seq<string>): Option<string>
    requires i < |routes|
  {
    if focused == i then None else Some(routes[i])
  }

  /** A press navigates exactly when it is not on the focused tab, and
      once there a second press on the same tab does nothing. */
  lemma TabPressGuard(focused: int, i: nat, routes: seq<string>)
    requires i < |routes|
    ensures TabPress(focused, i, routes).None? <==> focused == i
    ensures TabPress(focused, i, routes).Some? ==> TabPress(focused, i, routes).value == routes[i]
    ensures TabPress(i, i, routes) == None
  {
  }

  /** The overlay's `onPress(i)`: always push the tab's href. */
  function OverlayPress(i: nat): (href: string)
    requires i < |Tabs|
    ensures StartsWith(href, Tabs[0].href)
  {
    FirstHrefStartsAll(i);
    Tabs[i].href
  }
}
