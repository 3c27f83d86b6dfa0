/**
 * The choices the engine makes at random (backend/app/state.py:208-231): which
 * theme comes next and which challenge of that theme is drawn. `random.choice`
 * is modelled by an arbitrary index supplied by the caller.
 */
module Choice {
  import opened Base
  import opened Models

  /**
   * The challenge content, one list per theme. The loader always yields all
   * four themes, so every theme has a list (possibly empty).
   */
  datatype Content = Content(lyrics: seq<Challenge>, scene: seq<Challenge>,
                             emoji: seq<Challenge>, trivia: seq<Challenge>)
  {
    /** `content.get(theme, [])`. */
    function Pool(t: Theme): seq<Challenge>
    {
      match t
      case Lyrics => lyrics
      case Scene => scene
      case Emoji => emoji
      case Trivia => trivia
    }
  }

  /** `random.choice(xs)` for the draw `k`: some element of a non-empty list. */
  function Choose<T>(xs: seq<T>, k: nat): (x: T)
    requires |xs| > 0
    ensures x in xs
  {
    xs[k % |xs|]
  }

  /** Every element of the list is one draw away: the choice is unrestricted. */
  lemma ChooseCovers<T>(xs: seq<T>, x: T)
    requires x in xs
    ensures exists k: nat :: Choose(xs, k) == x
  {
    var j :| 0 <= j < |xs| && xs[j] == x;
    assert j % |xs| == j;
    assert Choose(xs, j) == x;
  }

  /** The themes of `xs`, in order, that are not in `drop`. */
  function Without(xs: seq<Theme>, drop: seq<Theme>): (r: seq<Theme>)
    ensures forall x :: x in r <==> x in xs && x !in drop
    ensures |r| <= |xs|
    ensures Distinct(xs) ==> Distinct(r)
  {
    if |xs| == 0 then []
    else if xs[0] in drop then Without(xs[1..], drop)
    else [xs[0]] + Without(xs[1..], drop)
  }

  /** No theme occurs twice. */
  predicate Distinct(xs: seq<Theme>)
  {
    forall i, j :: 0 <= i < j < |xs| ==> xs[i] != xs[j]
  }

  /** The themes not disabled for the match, or every theme when all are disabled. */
  function UsableThemes(disabled: seq<Theme>): (r: seq<Theme>)
    ensures |r| > 0 && Distinct(r)
    ensures forall t :: t in r ==> t in AllThemes
  {
    var usable := Without(AllThemes, disabled);
    if |usable| == 0 then AllThemes else usable
  }

  /**
   * The themes `_pick_random_theme` draws from: the usable themes, minus the
   * excluded one when it is usable and at least one other theme is.
   */
  function ThemeCandidates(disabled: seq<Theme>, exclude: Option<Theme>): (r: seq<Theme>)
    ensures |r| > 0
    ensures forall t :: t in r ==> t in UsableThemes(disabled)
  {
    var usable := UsableThemes(disabled);
    if exclude.Some? && |usable| > 1 && exclude.value in usable then
      var rest := Without(usable, [exclude.value]);
      assert usable[0] != usable[1];
      assert usable[0] in rest || usable[1] in rest;
      rest
    else usable
  }

  /** `_pick_random_theme(match, exclude)` for the draw `k`. */
  function PickTheme(disabled: seq<Theme>, exclude: Option<Theme>, k: nat): (t: Theme)
    ensures t in ThemeCandidates(disabled, exclude)
    ensures t in UsableThemes(disabled)
  {
    Choose(ThemeCandidates(disabled, exclude), k)
  }

  /** The theme drawn is never a disabled one, unless every theme is disabled. */
  lemma PickThemeRespectsDisabled(disabled: seq<Theme>, exclude: Option<Theme>, k: nat)
    ensures (exists u :: u in AllThemes && u !in disabled) ==> PickTheme(disabled, exclude, k) !in disabled
    ensures (forall u :: u in AllThemes ==> u in disabled) ==> PickTheme(disabled, exclude, k) in AllThemes
  {
    var usable := Without(AllThemes, disabled);
    if exists u :: u in AllThemes && u !in disabled {
      var u :| u in AllThemes && u !in disabled;
      assert u in usable;
    }
  }

  /** With more than one usable theme, the excluded theme is never drawn again. */
  lemma PickThemeAvoidsExcluded(disabled: seq<Theme>, exclude: Option<Theme>, k: nat)
    requires exclude.Some?
    requires |UsableThemes(disabled)| > 1
    ensures PickTheme(disabled, exclude, k) != exclude.value
  {
  }

  /** Every candidate theme can be the one drawn. */
  lemma PickThemeCovers(disabled: seq<Theme>, exclude: Option<Theme>, t: Theme)
    requires t in ThemeCandidates(disabled, exclude)
    ensures exists k: nat :: PickTheme(disabled, exclude, k) == t
  {
    ChooseCovers(ThemeCandidates(disabled, exclude), t);
    var k: nat :| Choose(ThemeCandidates(disabled, exclude), k) == t;
    assert PickTheme(disabled, exclude, k) == t;
  }

  /** The challenges of the pool, in order, whose ids are not in `used`. */
  function Unused(pool: seq<Challenge>, used: seq<string>): (r: seq<Challenge>)
    ensures forall c :: c in r <==> c in pool && c.id !in used
  {
    if |pool| == 0 then []
    else if pool[0].id in used then Unused(pool[1..], used)
    else [pool[0]] + Unused(pool[1..], used)
  }

  /**
   * The list `_draw_challenge` draws from: the challenges not yet used in the
   * tournament, or the whole pool once all have been used.
   */
  function SelectionPool(pool: seq<Challenge>, used: seq<string>): (r: seq<Challenge>)
    ensures |r| == 0 <==> |pool| == 0
    ensures forall c :: c in r ==> c in pool
    ensures (exists c :: c in pool && c.id !in used) ==> forall c :: c in r ==> c.id !in used
    ensures (forall c :: c in pool ==> c.id in used) ==> r == pool
  {
    var available := Unused(pool, used);
    assert |available| > 0 ==> available[0] in available;
    if |available| > 0 then available else pool
  }
}
