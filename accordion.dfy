/**
 * The "Every biomarker, in context" accordion: sixteen panels, of which at
 * most one is expanded, selected by a single nullable open index.
 */
module Accordion {

  datatype Option<T> = None | Some(value: T)

  /** A panel: its title, the advertised number of biomarkers, and the list shown when expanded. */
  datatype Biomarker = Biomarker(title: string, count: nat, details: seq<string>)

  const Biomarkers: seq<Biomarker> := [
    Biomarker("Heart Health", 15, ["Cholesterol", "HDL", "LDL", "Triglycerides", "Hs-CRP", "Homocysteine", "ApoB", "Lp(a)", "HbA1c", "Fasting Insulation", "Glucose", "Cortisol", "More..."]),
    Biomarker("Stress & Ageing Markers", 3, ["Cortisol", "DHEA-S", "Telomere Length"]),
    Biomarker("Thyroid Profile", 5, ["TSH", "Free T3", "Free T4", "TPO Antibodies", "Reverse T3"]),
    Biomarker("Liver Function", 8, ["ALT", "AST", "GGT", "Bilirubin", "Albumin", "Globulin", "Total Protein", "ALP"]),
    Biomarker("Autoimmune Panel", 5, ["ANA", "Rheumatoid Factor", "Anti-CCP", "ESR", "CRP"]),
    Biomarker("Kidney Function", 9, ["Creatinine", "eGFR", "BUN", "Uric Acid", "Sodium", "Potassium", "Chloride", "Calcium", "Phosphorus"]),
    Biomarker("Immune Regulation", 7, ["White Blood Cells", "Neutrophils", "Lymphocytes", "Monocytes", "Eosinophils", "Basophils", "Platelets"]),
    Biomarker("Pancreas Function", 2, ["Amylase", "Lipase"]),
    Biomarker("Male Health", 6, ["Testosterone Total", "Testosterone Free", "SHBG", "Prolactin", "Estradiol", "PSA"]),
    Biomarker("Heavy Metal Markers", 2, ["Lead", "Mercury"]),
    Biomarker("Female Health", 9, ["FSH", "LH", "Estradiol", "Progesterone", "Testosterone", "DHEA-S", "Prolactin", "Ferritin", "Iron"]),
    Biomarker("Complete Blood Count", 10, ["RBC", "Hemoglobin", "Hematocrit", "MCV", "MCH", "MCHC", "RDW", "WBC", "Platelets", "Differential Count"]),
    Biomarker("Diabetes Panel", 4, ["HbA1c", "Fasting Glucose", "Fasting Insulin", "HOMA-IR"]),
    Biomarker("Electrolyte Panel", 6, ["Sodium", "Potassium", "Chloride", "Calcium", "Magnesium", "Phosphorus"]),
    Biomarker("Nutrient Panel", 16, ["Vitamin D", "Vitamin B12", "Folate", "Iron", "Ferritin", "Magnesium", "Zinc", "Selenium", "Copper", "Omega-3", "More..."]),
    Biomarker("Urine Panel", 15, ["Color", "Clarity", "pH", "Specific Gravity", "Protein", "Glucose", "Ketones", "Bilirubin", "Urobilinogen", "Nitrite", "Leukocytes", "Blood"])
  ]

  /** Panel `k` is expanded exactly when the open index is `k`. */
  predicate IsOpen(open: Option<int>, k: int)
  {
    open == Some(k)
  }

  /** The open index is either empty or names one of the panels. */
  predicate ValidOpen(open: Option<int>)
  {
    open.Some? ==> 0 <= open.value < |Biomarkers|
  }

  /**
   * The open test holds for at most one panel. The statement about what is
   * rendered, that at most one panel is expanded, is `RenderExpandsAtMostOne`.
   */
  lemma AtMostOneOpen(open: Option<int>, j: int, k: int)
    requires IsOpen(open, j) && IsOpen(open, k)
    ensures j == k
  {
  }

  /** A click on panel `index`: close it if it is the open one, otherwise open it alone. */
  function Toggle(open: Option<int>, index: int): (r: Option<int>)
    ensures IsOpen(r, index) <==> !IsOpen(open, index)
    ensures forall j :: j != index ==> !IsOpen(r, j)
    ensures 0 <= index < |Biomarkers| ==> ValidOpen(r)
  {
    if open == Some(index) then None else Some(index)
  }

  /** Clicking the same panel twice restores a state in which no other panel was open. */
  lemma ToggleTwice(open: Option<int>, index: int)
    requires open == None || open == Some(index)
    ensures Toggle(Toggle(open, index), index) == open
  {
  }

  /**
   * When another panel `j` was open, two clicks on `index` do not bring `j`
   * back: the first click closes `j`, the second closes `index`.
   */
  lemma ToggleTwiceForgetsOther(j: int, index: int)
    requires j != index
    ensures Toggle(Toggle(Some(j), index), index) == None
  {
  }

  // ---------------------------------------------------------------------------
  // Rendering

  datatype Icon = Plus | Minus

  /** What one rendered panel shows: its header, its icon and whether its detail grid is expanded. */
  datatype PanelView = PanelView(title: string, count: nat, icon: Icon, expanded: bool, details: seq<string>)

  function RenderPanel(b: Biomarker, isOpen: bool): (v: PanelView)
    ensures v.expanded == isOpen
    ensures v.icon == Minus <==> v.expanded
    ensures v.title == b.title && v.count == b.count && v.details == b.details
  {
    PanelView(b.title, b.count, if isOpen then Minus else Plus, isOpen, b.details)
  }

  /** The panels in order, each expanded exactly when it is the open one. */
  function Render(open: Option<int>): (views: seq<PanelView>)
    ensures |views| == |Biomarkers|
    ensures forall k :: 0 <= k < |views| ==> views[k] == RenderPanel(Biomarkers[k], IsOpen(open, k))
  {
    seq(|Biomarkers|, k requires 0 <= k < |Biomarkers| => RenderPanel(Biomarkers[k], IsOpen(open, k)))
  }

  /** The number of expanded panels in a rendering. */
  function ExpandedCount(views: seq<PanelView>): nat
  {
    if views == [] then 0
    else (if views[0].expanded then 1 else 0) + ExpandedCount(views[1..])
  }

  /** A rendering in which only position `k` may be expanded has one expanded panel if `k` is a position, none otherwise. */
  lemma {:induction false} ExpandedCountSingle(views: seq<PanelView>, k: int)
    requires forall j :: 0 <= j < |views| ==> (views[j].expanded <==> j == k)
    ensures ExpandedCount(views) == if 0 <= k < |views| then 1 else 0
  {
    if views != [] {
      assert forall j :: 0 <= j < |views| - 1 ==> (views[1..][j].expanded <==> j == k - 1) by {
        forall j | 0 <= j < |views| - 1
          ensures views[1..][j].expanded <==> j == k - 1
        {
          assert views[1..][j] == views[j + 1];
        }
      }
      ExpandedCountSingle(views[1..], k - 1);
    }
  }

  /**
   * Every rendering expands exactly one panel when the open index names a
   * panel, and none otherwise.
   */
  lemma {:induction false} RenderExpandsAtMostOne(open: Option<int>)
    ensures ExpandedCount(Render(open)) == if open.Some? && ValidOpen(open) then 1 else 0
    ensures ExpandedCount(Render(open)) <= 1
  {
    var views := Render(open);
    var k := if open.Some? then open.value else -1;
    forall j | 0 <= j < |views|
      ensures views[j].expanded <==> j == k
    {
    }
    ExpandedCountSingle(views, k);
  }

  // ---------------------------------------------------------------------------
  // The component state

  class BiomarkerAccordion {
    var openIndex: Option<int>

    predicate Valid()
      reads this
    {
      ValidOpen(openIndex)
    }

    /** The initial render: every panel collapsed. */
    constructor ()
      ensures openIndex == None
      ensures Valid()
    {
      openIndex := None;
    }

    /** The click handler of panel `index`; panels pass their own position in the list. */
    method ToggleAccordion(index: int)
      requires 0 <= index < |Biomarkers|
      modifies this
      ensures openIndex == Toggle(old(openIndex), index)
      ensures Valid()
    {
      openIndex := if openIndex == Some(index) then None else Some(index);
    }

    /** The panels as currently rendered: one expanded panel when a panel is open, none otherwise. */
    function Panels(): (views: seq<PanelView>)
      reads this
      requires Valid()
      ensures views == Render(openIndex)
      ensures ExpandedCount(views) == if openIndex.Some? then 1 else 0
    {
      RenderExpandsAtMostOne(openIndex);
      Render(openIndex)
    }
  }
}
