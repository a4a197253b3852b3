/** The national insights page (src/pages/NationalInsights.jsx): the tier
    label and CSS class of the national service load index, the class of
    the concentration card, the explanation and badge text of each risk
    flag. Each is read off the insights object the backend returns. */
module NationalInsightsPage {
  import opened Common
  import opened JsValues
  import InsightEngine
  import DataCleaningPage

  // ---------------------------------------------------------------------
  // Capacity tier
  // ---------------------------------------------------------------------

  const Elevated := "Elevated Observed Load"
  const High := "High Observed Load"
  const Moderate := "Moderate Observed Load"
  const Low := "Low Observed Load"

  /** `getCapacityLabel`: strict thresholds at 1e8, 5e7 and 1e7. */
  function CapacityLabel(loadIndex: real): (tier: string)
    ensures tier == Elevated <==> loadIndex > 100000000.0
    ensures tier == High <==> 50000000.0 < loadIndex <= 100000000.0
    ensures tier == Moderate <==> 10000000.0 < loadIndex <= 50000000.0
    ensures tier == Low <==> loadIndex <= 10000000.0
  {
    if loadIndex > 100000000.0 then Elevated
    else if loadIndex > 50000000.0 then High
    else if loadIndex > 10000000.0 then Moderate
    else Low
  }

  /** `capacity_signal?.national_service_load_index || 0`. */
  function LoadIndex(insights: JsValue): real
  {
    NumOr0(Field(Field(insights, "capacity_signal"), "national_service_load_index"))
  }

  /** `getCapacityBgClass`: the same thresholds, read off the insights. */
  function CapacityBgClass(insights: JsValue): (cls: string)
    ensures cls == "capacity-elevated" <==> LoadIndex(insights) > 100000000.0
    ensures cls == "capacity-high" <==> 50000000.0 < LoadIndex(insights) <= 100000000.0
    ensures cls == "capacity-moderate" <==> 10000000.0 < LoadIndex(insights) <= 50000000.0
    ensures cls == "capacity-low" <==> LoadIndex(insights) <= 10000000.0
  {
    var loadIndex := LoadIndex(insights);
    if loadIndex > 100000000.0 then "capacity-elevated"
    else if loadIndex > 50000000.0 then "capacity-high"
    else if loadIndex > 10000000.0 then "capacity-moderate"
    else "capacity-low"
  }

  /** The card's class and its label always name the same tier. */
  lemma ClassAndLabelAgree(insights: JsValue)
    ensures CapacityBgClass(insights) == "capacity-elevated" <==> CapacityLabel(LoadIndex(insights)) == Elevated
    ensures CapacityBgClass(insights) == "capacity-high" <==> CapacityLabel(LoadIndex(insights)) == High
    ensures CapacityBgClass(insights) == "capacity-moderate" <==> CapacityLabel(LoadIndex(insights)) == Moderate
    ensures CapacityBgClass(insights) == "capacity-low" <==> CapacityLabel(LoadIndex(insights)) == Low
  {
  }

  /** Insights without a capacity signal, or with an index of 0, show the
      lowest tier. */
  lemma MissingIndexIsLow(insights: JsValue)
    requires !Truthy(Field(Field(insights, "capacity_signal"), "national_service_load_index"))
    ensures CapacityLabel(LoadIndex(insights)) == Low && CapacityBgClass(insights) == "capacity-low"
  {
  }

  /** The backend's index, as sent, is the index the page classifies. */
  lemma LoadIndexOfBackend(x: real)
    ensures LoadIndex(Obj(map["capacity_signal" := Obj(map["national_service_load_index" := Num(x)])])) == x
  {
  }

  /** The page's tiers and the backend's capacity hint: above the two
      shared thresholds they agree, but the page's thresholds are strict
      where the backend's are not, so exactly 5e7 and exactly 1e8 fall a
      tier lower on the page. */
  lemma LabelAgreesWithHint(index: real)
    ensures index != 50000000.0 ==>
      ((CapacityLabel(index) == High || CapacityLabel(index) == Elevated) <==> InsightEngine.CapacityHint(index) != "Stable")
    ensures index != 100000000.0 ==>
      (CapacityLabel(index) == Elevated <==> InsightEngine.CapacityHint(index) == "Urgent Scaling Needed")
    ensures CapacityLabel(50000000.0) == Moderate && InsightEngine.CapacityHint(50000000.0) == "Expansion Required"
    ensures CapacityLabel(100000000.0) == High && InsightEngine.CapacityHint(100000000.0) == "Urgent Scaling Needed"
  {
  }

  // ---------------------------------------------------------------------
  // Concentration card
  // ---------------------------------------------------------------------

  /** `getConcentrationBgClass`: high only for the exact flag string. */
  function ConcentrationClass(insights: JsValue): (cls: string)
    ensures cls == "concentration-high" <==> Field(Field(insights, "concentration_analysis"), "risk_flag") == Str("HIGH_CONCENTRATION")
    ensures cls == "concentration-low" <==> Field(Field(insights, "concentration_analysis"), "risk_flag") != Str("HIGH_CONCENTRATION")
  {
    if Field(Field(insights, "concentration_analysis"), "risk_flag") == Str("HIGH_CONCENTRATION") then "concentration-high"
    else "concentration-low"
  }

  /** With the backend's flag, the card is high exactly when the top three
      states hold more than 45 percent of the load. */
  lemma ConcentrationClassOfBackend(insights: JsValue, top3Share: real)
    requires Field(Field(insights, "concentration_analysis"), "risk_flag") == Str(InsightEngine.ConcentrationFlag(top3Share))
    ensures ConcentrationClass(insights) == "concentration-high" <==> top3Share > 45.0
  {
    if top3Share <= 45.0 {
      assert InsightEngine.ConcentrationFlag(top3Share) == "BALANCED";
      assert Str("BALANCED") != Str("HIGH_CONCENTRATION") by {
        assert "BALANCED"[0] != "HIGH_CONCENTRATION"[0];
      }
    }
  }

  // ---------------------------------------------------------------------
  // Risk flags
  // ---------------------------------------------------------------------

  const DefaultExplanation := "Operational risk indicator triggered."

  /** The four flags the page explains. */
  predicate Known(flag: string)
  {
    flag == "BIO_REVERIFICATION_SURGE" || flag == "CAPACITY_STRETCH_RISK"
    || flag == "HIGH_REGIONAL_CONCENTRATION" || flag == "CRITICAL_CAPACITY_GAP"
  }

  /** `getRiskExplanation`: the flag's own explanation, or the default
      sentence for any other flag. */
  function RiskExplanation(flag: string): (e: string)
    ensures Known(flag) ==> e == KnownExplanation(flag)
    ensures !Known(flag) ==> e == DefaultExplanation
  {
    if Known(flag) then KnownExplanation(flag) else DefaultExplanation
  }

  /** The explanation of each of the four known flags. */
  function KnownExplanation(flag: string): string
    requires Known(flag)
  {
    if flag == "BIO_REVERIFICATION_SURGE" then "Elevated biometric re-verification demand exceeds historical averages."
    else if flag == "CAPACITY_STRETCH_RISK" then "National service load index reflects significantly elevated operational demand."
    else if flag == "HIGH_REGIONAL_CONCENTRATION" then "Demand heavily concentrated in few states creates operational vulnerability."
    else "Immediate infrastructure expansion required to meet service demand."
  }

  /** Every flag the backend can raise has its own explanation. */
  lemma BackendFlagsExplained(top3Share: real, dominant: string, dominantShare: real, hint: string, f: string)
    requires f in InsightEngine.RiskFlags(top3Share, dominant, dominantShare, hint)
    ensures Known(f) && RiskExplanation(f) == KnownExplanation(f)
  {
  }

  /** `flag.replace(/_/g, ' ').toUpperCase()`: the same text as a dataset
      label on the data quality page. */
  function RiskBadge(flag: string): (badge: string)
    ensures |badge| == |flag|
    ensures forall i :: 0 <= i < |flag| ==> (badge[i] == ' ' <==> flag[i] == '_' || flag[i] == ' ')
    ensures forall i :: 0 <= i < |flag| ==> !IsLower(badge[i])
  {
    var b := DataCleaningPage.DatasetLabel(flag);
    assert forall i :: 0 <= i < |flag| ==> b[i] == UpperChar(ReplaceChar(flag, '_', ' ')[i]);
    b
  }

  /** An upper-case flag's badge is the flag with spaces for '_'. */
  lemma BadgeOfUpperFlag(flag: string)
    requires forall i :: 0 <= i < |flag| ==> !IsLower(flag[i])
    ensures RiskBadge(flag) == ReplaceChar(flag, '_', ' ')
  {
    var b := RiskBadge(flag);
    var t := ReplaceChar(flag, '_', ' ');
    forall i | 0 <= i < |flag|
      ensures b[i] == t[i]
    {
      assert b[i] == UpperChar(t[i]);
    }
  }
}
