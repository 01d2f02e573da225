/**
 * The names a panel derives from its slug: the function-safe identifier
 * `func`, the key of its stored record, the global slot that publishes that
 * record, and the names of its filter points.
 */
module Identifiers {

  /** `str_replace('-', '_', $slug)`. */
  function FuncId(slug: string): (f: string)
    ensures |f| == |slug|
    ensures forall i :: 0 <= i < |slug| ==> f[i] == (if slug[i] == '-' then '_' else slug[i])
  {
    if slug == [] then []
    else [if slug[0] == '-' then '_' else slug[0]] + FuncId(slug[1..])
  }

  /** The option the stored values are read from: `<func>_settings`. Each identifier has its own. */
  function StorageKey(func: string): (r: string)
    ensures func <= r
    ensures forall g :: g + "_settings" == r ==> g == func
  {
    var r := func + "_settings";
    assert forall g :: g + "_settings" == r ==> g == func by {
      forall g | g + "_settings" == r ensures g == func {
        assert g == (g + "_settings")[..|g|];
      }
    }
    r
  }

  /** The global slot the stored values are published in: `<func>_options`. Each identifier has its own. */
  function SlotName(func: string): (r: string)
    ensures func <= r
    ensures forall g :: g + "_options" == r ==> g == func
  {
    var r := func + "_options";
    assert forall g :: g + "_options" == r ==> g == func by {
      forall g | g + "_options" == r ensures g == func {
        assert g == (g + "_options")[..|g|];
      }
    }
    r
  }

  function LabelsHook(func: string): string { func + "_labels" }
  function TabsHook(func: string): string { func + "_settings_tabs" }
  function SectionsHook(func: string): string { func + "_registered_settings_sections" }
  function SettingsHook(func: string): string { func + "_registered_settings" }

  /** The handle the panel's script is enqueued under: `<func>_opk`. */
  function ScriptHandle(func: string): string { func + "_opk" }

  /** The identifier has no `-` left and keeps every other character. */
  lemma FuncIdIsFunctionSafe(slug: string)
    ensures '-' !in FuncId(slug)
    ensures forall i :: 0 <= i < |slug| && slug[i] != '-' ==> FuncId(slug)[i] == slug[i]
  {
  }

  predicate IsSeparator(c: char) {
    c == '-' || c == '_'
  }

  /**
   * Two slugs get the same identifier, and so share storage key, slot and
   * filter points, exactly when they agree everywhere except for `-` against `_`.
   */
  lemma {:induction false} FuncIdCollides(s: string, t: string)
    ensures FuncId(s) == FuncId(t) <==>
      |s| == |t| &&
      forall i :: 0 <= i < |s| ==> s[i] == t[i] || (IsSeparator(s[i]) && IsSeparator(t[i]))
  {
    var fs, ft := FuncId(s), FuncId(t);
    if |s| == |t| && forall i :: 0 <= i < |s| ==> s[i] == t[i] || (IsSeparator(s[i]) && IsSeparator(t[i])) {
      forall i | 0 <= i < |s| ensures fs[i] == ft[i] { }
      assert fs == ft;
    }
    if fs == ft {
      forall i | 0 <= i < |s|
        ensures s[i] == t[i] || (IsSeparator(s[i]) && IsSeparator(t[i]))
      {
        assert fs[i] == ft[i];
      }
    }
  }
}
