/**
 * `generate_message`: pick one of four pitch templates at random and fill
 * in how the business is addressed.
 *
 * The template bodies are content, not logic: they are an oracle `render`
 * from a template number and the name to show to the finished text. The
 * random pick is a parameter constrained to the four templates.
 */
module Messages {
  import opened Text

  /** Names that stand for "no name": the strings pandas and spreadsheets leave in empty cells. */
  const Placeholders: seq<string> := ["nan", "none", "unknown"]

  /** How a business without a usable name is addressed. */
  const Anonymous := "your business"

  /** The number of templates `random.choice` picks from. */
  const TemplateCount := 4

  /** A template `random.choice` can pick. */
  type TemplateIndex = k: nat | k < TemplateCount

  /** `not business_name or business_name.lower() in ['nan', 'none', 'unknown']`. */
  predicate IsPlaceholder(name: string) {
    name == "" || Lower(name) in Placeholders
  }

  /** The name the greeting uses. */
  function NameDisplay(name: string): (d: string)
    ensures d == Anonymous || d == name
    ensures d == name <==> !IsPlaceholder(name)
  {
    if IsPlaceholder(name) then Anonymous else name
  }

  /** The greeting always names something: the display is never itself a placeholder. */
  lemma DisplayIsNamed(name: string)
    ensures !IsPlaceholder(NameDisplay(name))
  {
    var d := Lower(Anonymous);
    assert d[0] == 'y';
    assert d != "nan" && d != "none" && d != "unknown";
  }

  /** Filling in a display a second time changes nothing. */
  lemma DisplayIdempotent(name: string)
    ensures NameDisplay(NameDisplay(name)) == NameDisplay(name)
  {
    DisplayIsNamed(name);
  }

  /** Placeholders are recognised in any letter case. */
  lemma PlaceholderIgnoresCase(name: string)
    ensures IsPlaceholder(Lower(name)) == IsPlaceholder(name)
  {
    LowerIdempotent(name);
  }

  /** `generate_message(business_name)`, with `pick` the template `random.choice` drew. */
  function GenerateMessage(name: string, pick: TemplateIndex, render: (nat, string) -> string): (m: string)
    ensures exists k :: 0 <= k < TemplateCount && m == render(k, NameDisplay(name))
  {
    render(pick, NameDisplay(name))
  }
}
