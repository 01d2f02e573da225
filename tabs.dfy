/**
 * Which tab the panel shows, and which sections belong to a tab. The tabs
 * and the sections are the arrays the panel's filter points produce, in
 * declaration order.
 */
module Tabs {
  import opened PhpArrays

  /** `get_default_tab`: `key()` of the freshly filtered tabs, i.e. the first key; `null` when there is none. */
  function DefaultTab(tabs: PhpArray): (r: Option<string>)
    ensures r.None? <==> tabs == []
    ensures r.Some? ==> HasKey(tabs, r.value) && r.value == Keys(tabs)[0]
  {
    if tabs == [] then None else Some(tabs[0].0)
  }

  /**
   * `get_active_tab`: the requested tab (`$_GET['tab']`) when one was
   * requested and it is a key of the tabs, otherwise the default tab.
   */
  function ActiveTab(tabs: PhpArray, requested: Option<string>): (r: Option<string>)
    ensures requested.Some? && HasKey(tabs, requested.value) ==> r == requested
    ensures !(requested.Some? && HasKey(tabs, requested.value)) ==> r == DefaultTab(tabs)
  {
    if requested.Some? && HasKey(tabs, requested.value) then requested else DefaultTab(tabs)
  }

  /** The requested tab is shown exactly when it is one of the tabs. */
  lemma ActiveTabIsRequestedIff(tabs: PhpArray, t: string)
    ensures ActiveTab(tabs, Some(t)) == Some(t) <==> HasKey(tabs, t)
  {
  }

  /** With at least one tab, the active tab is always one of them; with none, there is no active tab. */
  lemma ActiveTabIsATab(tabs: PhpArray, requested: Option<string>)
    ensures tabs != [] ==> ActiveTab(tabs, requested).Some? && HasKey(tabs, ActiveTab(tabs, requested).value)
    ensures tabs == [] ==> ActiveTab(tabs, requested) == None
  {
  }

  /** Registering a further tab never changes the default tab, unless there was none. */
  lemma DefaultTabStable(tabs: PhpArray, k: string, v: Value)
    ensures DefaultTab(Set(tabs, k, v)) == if tabs == [] then Some(k) else DefaultTab(tabs)
  {
  }

  /** The argument of `get_settings_tab_sections`: the default `false`, or a tab key. */
  datatype TabArg = NoTab | TabKey(key: string)

  predicate TruthyTab(tab: TabArg) {
    tab.TabKey? && TruthyString(tab.key)
  }

  /**
   * `get_settings_tab_sections($tab)`: `$sections[$tab]` when `$tab` is
   * truthy and that entry is not `empty()`, otherwise `false`.
   */
  function TabSections(sections: PhpArray, tab: TabArg): (r: Value)
    ensures r != Bool(false) <==>
      TruthyTab(tab) && HasKey(sections, tab.key) && Truthy(Get(sections, tab.key).value)
    ensures r != Bool(false) ==> Get(sections, tab.key) == Some(r) && Truthy(r)
  {
    if TruthyTab(tab) then
      match Get(sections, tab.key)
      case Some(v) => if Truthy(v) then v else Bool(false)
      case None => Bool(false)
    else Bool(false)
  }
}
