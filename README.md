# WP OptionsKit panel core, modelled in Dafny

WP OptionsKit lets a WordPress plugin declare a settings panel. The
`TDP\OptionsKit` object is built from a slug. It derives a function-safe
identifier from the slug, reads the panel's stored record and publishes it
in a global slot. It collects labels, tabs, sections and settings through
WordPress filter points, and chooses the default and active tab. It detects
its own admin page, marks that page's body class, and hands one bootstrap
payload to the browser-side application.

This project models that logic:

- `PhpArrays` (`php_arrays.dfy`): PHP values and PHP arrays. An array is an
  insertion-ordered sequence of (key, value) pairs. Also `$a[$k] = $v` and
  `wp_parse_args` for an array argument, which is `array_merge($defaults, $args)`.
- `Filters` (`filters.dfy`): a registry of filter callbacks per hook name.
  `apply_filters` is a left fold of the callbacks over the default value.
- `Identifiers` (`identifiers.dfy`): `func`, the storage key
  `<func>_settings`, the global slot `<func>_options`, the filter-point
  names and the script handle.
- `Tabs` (`tabs.dfy`): `get_default_tab`, `get_active_tab` and
  `get_settings_tab_sections`.
- `Screen` (`screen.dfy`): `is_options_page` and `admin_body_class`.
- `Panel` (`panel.dfy`): the `OptionsKit` class with its constructor,
  `set_page_title` and `add_action_button`; the filtered labels, tabs,
  sections and settings; the global slot (`GlobalScope`); and the payload
  `enqueue_scripts` localizes.

Host inputs become parameters:

- the filter registry;
- the stored options (a map from option name to value);
- the current screen's `base`;
- the requested tab (`$_GET['tab']`, `None` when it is not set);
- the REST URL and the nonce, both opaque strings;
- the host's HTML escaping, as a function.

Three facts about the code shape the model:

- With nothing stored, `get_option(..., true)` yields `true` (line 93). The constructor publishes that `true` in the global slot.
- With no tabs, `get_default_tab` yields PHP `null`, because `key()` of an empty array is `null` (line 270). The model returns `None`.
- The `sections` array in the payload is exactly what the section filters produced (line 250). Sections that name an unknown tab stay in it.

## Model

| member | source | states |
|---|---|---|
| Identifiers.FuncId | wp-optionskit.php:91 | `func` has the slug's length; each `-` becomes `_`; every other character is unchanged |
| Identifiers.FuncIdIsFunctionSafe | wp-optionskit.php:91 | no `-` is left in `func`, and every character other than `-` is kept |
| Identifiers.FuncIdCollides | wp-optionskit.php:91-93 | two slugs get the same identifier iff they differ only by `-` against `_`; such panels share storage key, slot and filter points |
| Identifiers.StorageKey | wp-optionskit.php:93 | the option read is `func` followed by `_settings`, and no other identifier yields the same option name |
| Identifiers.SlotName | wp-optionskit.php:93 | the global slot written is `func` followed by `_options`, and no other identifier yields the same slot |
| Filters.ApplyFilters | wp-optionskit.php:162 | with no callbacks on a hook, the filtered value is the default |
| Filters.FoldAppend | wp-optionskit.php:162 | running two batches of callbacks is running the second on the first's result |
| Filters.FilterRunsLast | wp-optionskit.php:162 | a callback registered last receives the value every earlier callback produced |
| Filters.FilterIsolated | wp-optionskit.php:293-338 | registering on one filter point does not change another's value |
| PhpArrays.Merge | wp-optionskit.php:122 | the defaults' keys are a prefix of the merged keys; the merged array has exactly the keys of the defaults and of the arguments |
| PhpArrays.MergeGet | wp-optionskit.php:122 | in `wp_parse_args`, a supplied key overrides its default and a missing key keeps it |
| PhpArrays.MergeKeys | wp-optionskit.php:122 | the defaults' keys keep their positions; the new supplied keys follow in the order given |
| PhpArrays.MergeUnique | wp-optionskit.php:122 | the merged array has distinct keys |
| Panel.Labels | wp-optionskit.php:156-164 | the `<func>_labels` filters applied to the defaults; with no label filters, the labels are exactly `save => "Save Changes"` |
| Panel.SettingsTabs | wp-optionskit.php:293-295 | the `<func>_settings_tabs` filters applied to an empty array; with none registered, there are no tabs |
| Panel.RegisteredSections | wp-optionskit.php:323-329 | the `<func>_registered_settings_sections` filters applied to an empty array; with none registered, there are no sections |
| Panel.RegisteredSettings | wp-optionskit.php:336-338 | the `<func>_registered_settings` filters applied to an empty array; with none registered, there are no settings |
| Panel.ActionButton | wp-optionskit.php:117-122 | every button starts with the keys `title` and `url`, and has exactly those keys plus the supplied ones |
| Panel.ActionButtonFields | wp-optionskit.php:115-124 | `title` and `url` come first, each the supplied value or `""`; every other supplied key follows with its value |
| Panel.OptionsKit.constructor | wp-optionskit.php:84-97 | a falsy slug (absent, `""`, `"0"`) sets nothing, subscribes to no hook and leaves the globals alone; otherwise sets `func`, sets the filtered labels, publishes `get_option(<func>_settings, true)` in `<func>_options` and subscribes to the four host hooks |
| Panel.OptionsKit.SetPageTitle | wp-optionskit.php:105-107 | the title becomes the given one; nothing else changes |
| Panel.OptionsKit.AddActionButton | wp-optionskit.php:115-124 | exactly one defaulted button is appended; earlier buttons are unchanged |
| Panel.OptionsKit.EnqueueScripts | wp-optionskit.php:237-256 | a payload is produced iff the screen is the panel's page; it goes to `<func>_opk` (with `func` derived from the slug) as `optionsKitSettings`; it carries the REST URL and nonce as given, the escaped title, the buttons, the constructor-time labels, and the tabs, sections and settings filtered at enqueue time |
| Panel.EmptyRegistryPayload | wp-optionskit.php:243-252 | with nothing registered on the tab, section and settings points, the payload's tabs, sections and settings are empty |
| Panel.NoTabsNoActiveTab | wp-optionskit.php:264-295 | with no tab filters there is no default tab and no active tab, whatever is requested |
| Panel.LaterTabKeepsDefault | wp-optionskit.php:264-295 | once a tab exists, a later-registered filter that adds a tab does not change the default tab |
| Tabs.DefaultTab | wp-optionskit.php:264-275 | `None` iff there are no tabs; otherwise the first key in declaration order |
| Tabs.DefaultTabStable | wp-optionskit.php:264-275 | writing a tab keeps the default tab, unless there were no tabs, in which case the new key becomes the default |
| Tabs.ActiveTab | wp-optionskit.php:282-286 | the requested tab when it was requested and is a key, otherwise the default tab |
| Tabs.ActiveTabIsRequestedIff | wp-optionskit.php:284 | a requested tab is returned iff it is a key of the tabs |
| Tabs.ActiveTabIsATab | wp-optionskit.php:284 | with tabs, the active tab is always one of them; with none, there is no active tab |
| Tabs.TabSections | wp-optionskit.php:303-316 | not `false` iff the tab is truthy and its entry exists and is non-empty, and then it is that entry |
| Screen.IsOptionsPage | wp-optionskit.php:198-210 | the page test holds iff `<slug>-settings` occurs somewhere in the screen base |
| Screen.Contains | wp-optionskit.php:204 | true iff the needle occurs somewhere in the screen base |
| Screen.AdminBodyClass | wp-optionskit.php:219-230 | on the panel's page, the panel class is appended with no separator; elsewhere the classes are returned unchanged |
| Screen.BodyClassMarksOptionsPages | wp-optionskit.php:198-230 | the body classes change iff `is_options_page` holds, and the old classes are a prefix of the new ones |
| Screen.OwnPageRecognised | wp-optionskit.php:187-208 | a screen whose base contains the panel's menu slug `<slug>-settings` is recognised |
| Screen.LongerSlugPageRecognised | wp-optionskit.php:198-210 | the test is unanchored, so a panel also matches the page of any panel whose slug ends with its own slug |

## Left out

- Hook and menu registration (`hooks`, `add_settings_page`, the `<func>_menu` filter, `add_submenu_page`) are host framework calls. The model keeps only the list of host hooks the panel subscribes to.
- `register_rest_controller` loads `includes/class-wpok-rest-server.php`, which is not part of this model. Its routes, authorisation, saving and validation are therefore absent, as are applying and persisting changed values.
- The nonce (`wp_create_nonce`), the REST URL (`get_rest_url`, `esc_url`) and HTML escaping (`esc_html`) are host functions. They are parameters.
- `wp_enqueue_script` and `wp_localize_script` are not modelled beyond the handle, the object name and the payload. The hard-coded script URL is left out.
- `render_settings_page` (output buffering and a template) is rendering I/O.
- The storage backend and `$GLOBALS` are not modelled as such. Stored options are an input map, and the global slots are a `GlobalScope` object that the constructor updates.
- `preg_match` is modelled as literal substring search. A slug with regular-expression metacharacters or a `/` is outside the model.
- Filter callbacks are total functions from arrays to arrays, listed in the order WordPress runs them (priority first, then registration). Side effects and non-array results are not modelled. So the `is_array` guard of `get_default_tab` (line 269) always holds here, and its `''` fallback is unreachable.
- PHP's internal array pointer is not modelled. `key()` in `get_default_tab` (line 270) is taken to read the first key. That holds for a freshly built array, but not for one a filter callback returned after moving its pointer (with `end()` or `next()`).
- PHP integer keys are written as their decimal strings. `array_merge` renumbers integer keys, and `wp_parse_args` does this for the button arguments; that renumbering is not modelled.
- `wp_parse_args` with an object or a query-string argument is not modelled; only arrays are.
- `get_settings_tab_sections` takes either the default `false` (or `null`) or a string key. `true`, floats and arrays as the tab argument are not modelled, and neither is `$_GET['tab']` given as an array.
- Floats and objects as PHP values are not modelled.
- The `$version` and `$settings` fields are never read or written after initialisation, so they are not modelled.
