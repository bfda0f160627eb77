/**
  The legend above the skills constellation: one button per category. Its
  look is a pure function of the section's `activeCategory`, and its pointer
  handlers only ask the section to change that value.
*/
module SkillLegend {

  import opened Wrappers

  /** One legend entry, as the skills section derives it. */
  datatype Category = Category(name: string, color: Option<string>, count: nat)

  /** The two opacity classes a button can carry ('opacity-100', 'opacity-40'). */
  datatype Opacity = Opaque | Dimmed

  /** The button background: the category colour at low alpha, or transparent. */
  datatype Background = Tinted | Transparent

  /** What the legend renders for one category; `key` is the React key. */
  datatype Button = Button(key: string, opacity: Opacity, background: Background)

  /** The pointer events a button listens to. */
  datatype Pointer = Enter | Leave

  predicate DistinctNames(categories: seq<Category>)
  {
    forall i, j | 0 <= i < j < |categories| :: categories[i].name != categories[j].name
  }

  /** The button for one category under the current `activeCategory`. */
  function Render(category: Category, active: Option<string>): (b: Button)
    ensures b.key == category.name
    ensures b.opacity == Opaque <==> active.None? || active == Some(category.name)
    ensures b.background == Tinted <==> active == Some(category.name)
    ensures b.background == Tinted ==> b.opacity == Opaque
  {
    Button(
      category.name,
      if active.None? || active.value == category.name then Opaque else Dimmed,
      if active.Some? && active.value == category.name then Tinted else Transparent)
  }

  /** The legend: `categories.map(...)`, one button per category, in order. */
  function Buttons(categories: seq<Category>, active: Option<string>): (bs: seq<Button>)
    ensures |bs| == |categories|
    ensures forall i | 0 <= i < |bs| :: bs[i].key == categories[i].name
    ensures forall i | 0 <= i < |bs| ::
      bs[i].opacity == Opaque <==> active.None? || active == Some(categories[i].name)
    ensures forall i | 0 <= i < |bs| ::
      bs[i].background == Tinted <==> active == Some(categories[i].name)
  {
    seq(|categories|, i requires 0 <= i < |categories| => Render(categories[i], active))
  }

  /** With distinct category names, at most one button is highlighted. */
  lemma AtMostOneHighlighted(categories: seq<Category>, active: Option<string>)
    requires DistinctNames(categories)
    ensures var bs := Buttons(categories, active);
      forall i, j | 0 <= i < |bs| && 0 <= j < |bs| && bs[i].background == Tinted && bs[j].background == Tinted :: i == j
  {
  }

  /**
    The value a button hands to `onCategoryHover`: entering asks for the
    button's own category, leaving asks for `null`.
  */
  function HoverRequest(category: Category, event: Pointer): (request: Option<string>)
    ensures request.Some? <==> event == Enter
    ensures request.Some? ==> request.value == category.name
  {
    match event
    case Enter => Some(category.name)
    case Leave => None
  }

  /**
    After the pointer enters button `k` and the section stores the request,
    button `k` is the one highlighted and every other button is dimmed.
  */
  lemma EnterHighlightsOnlyThatEntry(categories: seq<Category>, k: nat)
    requires DistinctNames(categories)
    requires k < |categories|
    ensures var bs := Buttons(categories, HoverRequest(categories[k], Enter));
      && bs[k].opacity == Opaque && bs[k].background == Tinted
      && forall i | 0 <= i < |bs| && i != k :: bs[i].opacity == Dimmed && bs[i].background == Transparent
  {
    var bs := Buttons(categories, HoverRequest(categories[k], Enter));
    forall i | 0 <= i < |bs| && i != k
      ensures bs[i].opacity == Dimmed && bs[i].background == Transparent
    {
      if i < k {
        assert categories[i].name != categories[k].name;
      } else {
        assert categories[k].name != categories[i].name;
      }
    }
  }

  /** After the pointer leaves any button, every button is opaque and none is highlighted. */
  lemma LeaveRestoresLegend(categories: seq<Category>, k: nat)
    requires k < |categories|
    ensures var bs := Buttons(categories, HoverRequest(categories[k], Leave));
      forall i | 0 <= i < |bs| :: bs[i].opacity == Opaque && bs[i].background == Transparent
  {
  }
}
