/**
 * Whether the current admin screen is this panel's settings page.
 * `is_options_page` tests the screen's `base` with `preg_match("/<slug>-settings/")`;
 * for a slug without regular-expression metacharacters that is literal
 * substring containment, which is what is modelled.
 */
module Screen {

  /** The class `admin_body_class` appends on the panel's page. */
  const PanelPageClass := "optionskit-panel-page"

  /** The menu slug of the panel's page: `<slug>-settings`. */
  function SettingsPage(slug: string): string {
    slug + "-settings"
  }

  predicate OccursAt(hay: string, needle: string, i: int) {
    0 <= i && i + |needle| <= |hay| && hay[i..i + |needle|] == needle
  }

  /** Unanchored search for `needle` in `hay`. */
  function Contains(hay: string, needle: string): (r: bool)
    ensures r <==> exists i :: OccursAt(hay, needle, i)
    decreases |hay|
  {
    if |needle| <= |hay| && hay[..|needle|] == needle then
      assert OccursAt(hay, needle, 0);
      true
    else if hay == [] then
      assert forall i :: !OccursAt(hay, needle, i);
      false
    else
      ShiftOccurrence(hay, needle);
      Contains(hay[1..], needle)
  }

  /** Past a mismatch at the front, `needle` occurs in `hay` iff it occurs in `hay[1..]`. */
  lemma ShiftOccurrence(hay: string, needle: string)
    requires hay != [] && !OccursAt(hay, needle, 0)
    ensures (exists i :: OccursAt(hay, needle, i)) <==> (exists i :: OccursAt(hay[1..], needle, i))
  {
    var n := |needle|;
    if i :| OccursAt(hay[1..], needle, i) {
      assert hay[1..][i..i + n] == hay[i + 1..i + 1 + n];
      assert OccursAt(hay, needle, i + 1);
    }
    if i :| OccursAt(hay, needle, i) {
      assert i != 0;
      assert hay[1..][i - 1..i - 1 + n] == hay[i..i + n];
      assert OccursAt(hay[1..], needle, i - 1);
    }
  }

  /** `is_options_page`: the screen base mentions `<slug>-settings`. */
  predicate IsOptionsPage(slug: string, screenBase: string)
    ensures IsOptionsPage(slug, screenBase) <==> exists i :: OccursAt(screenBase, SettingsPage(slug), i)
  {
    Contains(screenBase, SettingsPage(slug))
  }

  /** `admin_body_class`: on the panel's page, append the panel class with no separator. */
  function AdminBodyClass(slug: string, classes: string, screenBase: string): (r: string)
    ensures IsOptionsPage(slug, screenBase) ==> r == classes + PanelPageClass
    ensures !IsOptionsPage(slug, screenBase) ==> r == classes
  {
    if Contains(screenBase, SettingsPage(slug)) then classes + PanelPageClass else classes
  }

  /** The body classes change exactly on the pages `is_options_page` recognises, and only by growing. */
  lemma BodyClassMarksOptionsPages(slug: string, classes: string, screenBase: string)
    ensures AdminBodyClass(slug, classes, screenBase) != classes <==> IsOptionsPage(slug, screenBase)
    ensures classes <= AdminBodyClass(slug, classes, screenBase)
  {
  }

  /** Any screen whose base embeds the panel's menu slug is recognised as the panel's page. */
  lemma OwnPageRecognised(slug: string, prefix: string, suffix: string)
    ensures IsOptionsPage(slug, prefix + SettingsPage(slug) + suffix)
  {
    var needle := SettingsPage(slug);
    var hay := prefix + needle + suffix;
    assert hay[|prefix|..|prefix| + |needle|] == needle;
    assert OccursAt(hay, needle, |prefix|);
  }

  /**
   * The test is unanchored: a panel is also recognised on the page of any
   * panel whose slug ends with its own slug.
   */
  lemma LongerSlugPageRecognised(slug: string, other: string, prefix: string)
    ensures IsOptionsPage(slug, prefix + SettingsPage(other + slug))
  {
    assert prefix + SettingsPage(other + slug) == (prefix + other) + SettingsPage(slug) + "";
    OwnPageRecognised(slug, prefix + other, "");
  }
}
