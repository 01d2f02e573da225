/**
 * The options panel object (`TDP\OptionsKit`): the state its constructor
 * and setters build, and what it hands to the browser-side application.
 */
module Panel {
  import opened PhpArrays
  import opened Filters
  import opened Identifiers
  import Tabs
  import Screen

  /** The host hooks `hooks()` subscribes a panel to, in order. */
  const HostHooks: seq<string> := ["admin_menu", "admin_body_class", "admin_enqueue_scripts", "rest_api_init"]

  /** The name of the script object the payload is published under. */
  const ScriptObject := "optionsKitSettings"

  function DefaultLabels(): PhpArray {
    [("save", Str("Save Changes"))]
  }

  function ButtonDefaults(): PhpArray {
    [("title", Str("")), ("url", Str(""))]
  }

  /** `get_labels`: the `<func>_labels` filters applied to the default labels. */
  function Labels(reg: Registry, func: string): (r: PhpArray)
    ensures Callbacks(reg, LabelsHook(func)) == [] ==>
      r == [("save", Str("Save Changes"))] && Get(r, "save") == Some(Str("Save Changes"))
  {
    ApplyFilters(reg, LabelsHook(func), DefaultLabels())
  }

  /** `get_settings_tabs`: the `<func>_settings_tabs` filters applied to an empty array. */
  function SettingsTabs(reg: Registry, func: string): (r: PhpArray)
    ensures Callbacks(reg, TabsHook(func)) == [] ==> r == []
  {
    ApplyFilters(reg, TabsHook(func), [])
  }

  /** `get_registered_settings_sections`: the `<func>_registered_settings_sections` filters applied to an empty array. */
  function RegisteredSections(reg: Registry, func: string): (r: PhpArray)
    ensures Callbacks(reg, SectionsHook(func)) == [] ==> r == []
  {
    ApplyFilters(reg, SectionsHook(func), [])
  }

  /** `get_registered_settings`: the `<func>_registered_settings` filters applied to an empty array. */
  function RegisteredSettings(reg: Registry, func: string): (r: PhpArray)
    ensures Callbacks(reg, SettingsHook(func)) == [] ==> r == []
  {
    ApplyFilters(reg, SettingsHook(func), [])
  }

  /** `get_option($key, true)`: the stored record, or `true` when nothing is stored. */
  function LoadOption(store: map<string, Value>, key: string): (v: Value)
    ensures key in store ==> v == store[key]
    ensures key !in store ==> v == Bool(true)
  {
    if key in store then store[key] else Bool(true)
  }

  /** `wp_parse_args($args, array('title' => '', 'url' => ''))`: every button has a `title` and a `url`, in that order, first. */
  function ActionButton(args: PhpArray): (r: PhpArray)
    ensures |r| >= 2 && Keys(r)[..2] == ["title", "url"]
    ensures forall k :: HasKey(r, k) <==> k == "title" || k == "url" || HasKey(args, k)
  {
    Merge(ButtonDefaults(), args)
  }

  /**
   * A button has `title` and `url` first, each the supplied value or `""`,
   * then the other supplied keys in their order, each with its supplied value.
   */
  lemma ActionButtonFields(args: PhpArray)
    requires UniqueKeys(args)
    ensures Get(ActionButton(args), "title") ==
      if HasKey(args, "title") then Get(args, "title") else Some(Str(""))
    ensures Get(ActionButton(args), "url") ==
      if HasKey(args, "url") then Get(args, "url") else Some(Str(""))
    ensures forall k :: HasKey(args, k) ==> Get(ActionButton(args), k) == Get(args, k)
    ensures Keys(ActionButton(args)) == ["title", "url"] + Fresh(Keys(args), ["title", "url"])
    ensures UniqueKeys(ActionButton(args))
  {
    var d := ButtonDefaults();
    assert Keys(d) == ["title", "url"];
    MergeKeys(d, args);
    MergeUnique(d, args);
    MergeGet(d, args, "title");
    MergeGet(d, args, "url");
    forall k | HasKey(args, k) ensures Get(ActionButton(args), k) == Get(args, k) {
      MergeGet(d, args, k);
    }
  }

  /** What `enqueue_scripts` hands to `wp_localize_script`, field by field. */
  datatype Payload = Payload(
    restUrl: string,
    nonce: string,
    pageTitle: string,
    buttons: seq<PhpArray>,
    labels: PhpArray,
    tabs: PhpArray,
    sections: PhpArray,
    settings: PhpArray)

  /** A localized script: its handle, the name of its object, and the object. */
  datatype Localized = Localized(handle: string, objectName: string, data: Payload)

  /** `$GLOBALS`: the process-wide slots other code reads the published values from. */
  class GlobalScope {
    var slots: map<string, Value>

    constructor (slots: map<string, Value>)
      ensures this.slots == slots
    {
      this.slots := slots;
    }
  }

  class OptionsKit {
    var slug: Option<string>
    var func: Option<string>
    var pageTitle: Option<string>
    var actionButtons: seq<PhpArray>
    var labels: PhpArray
    /** The host hooks the panel is subscribed to. */
    var subscriptions: seq<string>

    /**
     * Either the constructor stopped early and nothing is set, or the slug
     * is truthy and `func` is its function-safe identifier.
     */
    ghost predicate Valid()
      reads this
    {
      || (slug.None? && func.None? && subscriptions == [])
      || (slug.Some? && TruthyString(slug.value) && func == Some(FuncId(slug.value))
          && subscriptions == HostHooks)
    }

    /** `$this->slug` where PHP reads an unset property as `null`, i.e. `""` in a string. */
    function SlugText(): string
      reads this
    {
      if slug.Some? then slug.value else ""
    }

    function FuncText(): string
      reads this
    {
      if func.Some? then func.value else ""
    }

    function TitleText(): string
      reads this
    {
      if pageTitle.Some? then pageTitle.value else ""
    }

    /**
     * `new OptionsKit($slug)`: with a falsy slug nothing is set and no hook
     * is subscribed; otherwise the identifier and labels are derived, the
     * stored record is published in the global slot, and the hooks are subscribed.
     */
    constructor (slug: Option<string>, store: map<string, Value>, reg: Registry, globals: GlobalScope)
      modifies globals
      ensures Valid()
      ensures actionButtons == [] && pageTitle == None
      ensures !(slug.Some? && TruthyString(slug.value)) ==>
        && this.slug == None && func == None && labels == [] && subscriptions == []
        && globals.slots == old(globals.slots)
      ensures slug.Some? && TruthyString(slug.value) ==>
        && this.slug == slug
        && func == Some(FuncId(slug.value))
        && labels == Labels(reg, FuncId(slug.value))
        && subscriptions == HostHooks
        && globals.slots == old(globals.slots)[SlotName(FuncId(slug.value)) :=
             LoadOption(store, StorageKey(FuncId(slug.value)))]
    {
      pageTitle := None;
      actionButtons := [];
      if slug.Some? && TruthyString(slug.value) {
        var f := FuncId(slug.value);
        this.slug := slug;
        func := Some(f);
        labels := Labels(reg, f);
        subscriptions := HostHooks;
      } else {
        this.slug := None;
        func := None;
        labels := [];
        subscriptions := [];
      }
      new;
      if func.Some? {
        globals.slots := globals.slots[SlotName(func.value) := LoadOption(store, StorageKey(func.value))];
      }
    }

    /** `set_page_title`. */
    method SetPageTitle(title: string := "")
      requires Valid()
      modifies this`pageTitle
      ensures Valid()
      ensures pageTitle == Some(title)
    {
      pageTitle := Some(title);
    }

    /** `add_action_button`: the defaulted button goes at the end; earlier buttons stay. */
    method AddActionButton(args: PhpArray)
      requires Valid()
      modifies this`actionButtons
      ensures Valid()
      ensures actionButtons == old(actionButtons) + [ActionButton(args)]
    {
      actionButtons := actionButtons + [ActionButton(args)];
    }

    /**
     * `enqueue_scripts`: only on the panel's page, the payload localized for
     * the script `<func>_opk`. The REST URL and the nonce come from the host;
     * `escHtml` is the host's HTML escaping.
     */
    function EnqueueScripts(reg: Registry, screenBase: string, restUrl: string, nonce: string,
                            escHtml: string -> string): (r: Option<Localized>)
      reads this
      requires Valid()
      ensures r.Some? <==> Screen.IsOptionsPage(SlugText(), screenBase)
      ensures r.Some? ==> r.value.handle == ScriptHandle(FuncText()) && r.value.objectName == ScriptObject
      ensures r.Some? && slug.Some? ==> r.value.handle == ScriptHandle(FuncId(slug.value))
      ensures r.Some? ==> r.value.data.restUrl == restUrl && r.value.data.nonce == nonce
      ensures r.Some? ==> r.value.data.pageTitle == escHtml(TitleText())
      ensures r.Some? ==> r.value.data.buttons == actionButtons && r.value.data.labels == labels
      ensures r.Some? ==>
        && r.value.data.tabs == SettingsTabs(reg, FuncText())
        && r.value.data.sections == RegisteredSections(reg, FuncText())
        && r.value.data.settings == RegisteredSettings(reg, FuncText())
    {
      if Screen.IsOptionsPage(SlugText(), screenBase) then
        Some(Localized(ScriptHandle(FuncText()), ScriptObject, Payload(
          restUrl, nonce, escHtml(TitleText()), actionButtons, labels,
          SettingsTabs(reg, FuncText()),
          RegisteredSections(reg, FuncText()),
          RegisteredSettings(reg, FuncText()))))
      else None
    }
  }

  /**
   * With nothing registered on the tab, section and settings filter points,
   * the payload carries empty tabs, sections and settings.
   */
  lemma EmptyRegistryPayload(p: OptionsKit, reg: Registry, screenBase: string, restUrl: string,
                             nonce: string, escHtml: string -> string)
    requires Callbacks(reg, TabsHook(p.FuncText())) == []
    requires Callbacks(reg, SectionsHook(p.FuncText())) == []
    requires Callbacks(reg, SettingsHook(p.FuncText())) == []
    requires p.Valid()
    requires Screen.IsOptionsPage(p.SlugText(), screenBase)
    ensures p.EnqueueScripts(reg, screenBase, restUrl, nonce, escHtml).Some?
    ensures p.EnqueueScripts(reg, screenBase, restUrl, nonce, escHtml).value.data.tabs == []
    ensures p.EnqueueScripts(reg, screenBase, restUrl, nonce, escHtml).value.data.sections == []
    ensures p.EnqueueScripts(reg, screenBase, restUrl, nonce, escHtml).value.data.settings == []
  {
  }

  /** With no tab filters there is neither a default nor an active tab, whatever is requested. */
  lemma NoTabsNoActiveTab(reg: Registry, func: string, requested: Option<string>)
    requires Callbacks(reg, TabsHook(func)) == []
    ensures Tabs.DefaultTab(SettingsTabs(reg, func)) == None
    ensures Tabs.ActiveTab(SettingsTabs(reg, func), requested) == None
  {
  }

  /** A tab filter registered later that adds a tab does not change the default tab once one exists. */
  lemma LaterTabKeepsDefault(reg: Registry, func: string, k: string, v: Value)
    requires SettingsTabs(reg, func) != []
    ensures Tabs.DefaultTab(SettingsTabs(AddFilter(reg, TabsHook(func), t => Set(t, k, v)), func))
         == Tabs.DefaultTab(SettingsTabs(reg, func))
  {
    FilterRunsLast(reg, TabsHook(func), t => Set(t, k, v), []);
    Tabs.DefaultTabStable(SettingsTabs(reg, func), k, v);
  }
}
