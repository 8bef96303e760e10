/** The two fixed tables the AI mentor is configured from: the personas
    (components/MentorshipPage.tsx:21-26) and the response styles (28-32), in display order.
    Each column of a table the handlers read is one function of the row; icons,
    descriptions and the persona prompts are read by no handler and are not modelled. */
module AiMentorConfig {

  /** The closed set of personas, one per row of the persona table. */
  datatype PersonaId = Strategist | VentureCapitalist | GrowthExpert | ProductManager

  /** The stable `id` key the picker compares to highlight the selection. */
  function PersonaKey(p: PersonaId): string {
    match p
    case Strategist => "strategist"
    case VentureCapitalist => "vc"
    case GrowthExpert => "growth"
    case ProductManager => "product"
  }

  /** The label shown, quoted in the greeting and sent to the gateway with every message. */
  function PersonaLabel(p: PersonaId): string {
    match p
    case Strategist => "محلل استراتيجي"
    case VentureCapitalist => "مستثمر جريء (VC)"
    case GrowthExpert => "خبير نمو (Growth)"
    case ProductManager => "مدير منتج (Product)"
  }

  /** The persona table in display order; its first row is the initial selection. */
  const AiPersonas: seq<PersonaId> := [Strategist, VentureCapitalist, GrowthExpert, ProductManager]

  /** The closed set of response styles, one per row of the style table. */
  datatype StyleId = Formal | Casual | Concise

  /** The stable `id` key the picker compares to highlight the selection. */
  function StyleKey(s: StyleId): string {
    match s
    case Formal => "formal"
    case Casual => "casual"
    case Concise => "concise"
  }

  /** The label shown, quoted in the greeting and sent to the gateway with every message. */
  function StyleLabel(s: StyleId): string {
    match s
    case Formal => "رسمي مؤسسي"
    case Casual => "توجيهي مباشر"
    case Concise => "ملخص تنفيذي"
  }

  /** The style table in display order; its first row is the initial selection. */
  const AiStyles: seq<StyleId> := [Formal, Casual, Concise]

  /** The persona table lists every persona exactly once. */
  lemma PersonaTableComplete()
    ensures forall p: PersonaId :: p in AiPersonas
    ensures forall i, j :: 0 <= i < j < |AiPersonas| ==> AiPersonas[i] != AiPersonas[j]
  {
    forall p: PersonaId ensures p in AiPersonas {
      match p
      case Strategist => assert AiPersonas[0] == p;
      case VentureCapitalist => assert AiPersonas[1] == p;
      case GrowthExpert => assert AiPersonas[2] == p;
      case ProductManager => assert AiPersonas[3] == p;
    }
  }

  /** The `id` keys are pairwise distinct, so the picker highlights exactly the selected
      row; so are the labels, so the label alone, which is all the gateway receives,
      identifies the persona. */
  lemma PersonaKeysDistinct()
    ensures forall p, q :: PersonaKey(p) == PersonaKey(q) ==> p == q
    ensures forall p, q :: PersonaLabel(p) == PersonaLabel(q) ==> p == q
  {
    // keys, and labels, already differ in length
    forall p, q | p != q
      ensures |PersonaKey(p)| != |PersonaKey(q)|
      ensures |PersonaLabel(p)| != |PersonaLabel(q)|
    {
    }
  }

  /** The style table lists every style exactly once. */
  lemma StyleTableComplete()
    ensures forall s: StyleId :: s in AiStyles
    ensures forall i, j :: 0 <= i < j < |AiStyles| ==> AiStyles[i] != AiStyles[j]
  {
    forall s: StyleId ensures s in AiStyles {
      match s
      case Formal => assert AiStyles[0] == s;
      case Casual => assert AiStyles[1] == s;
      case Concise => assert AiStyles[2] == s;
    }
  }

  /** Style keys, and style labels, are pairwise distinct. */
  lemma StyleKeysDistinct()
    ensures forall s, t :: StyleKey(s) == StyleKey(t) ==> s == t
    ensures forall s, t :: StyleLabel(s) == StyleLabel(t) ==> s == t
  {
    // labels differ in length
    forall s, t | s != t
      ensures StyleKey(s) != StyleKey(t)
      ensures |StyleLabel(s)| != |StyleLabel(t)|
    {
    }
  }
}
