/** The data quality page (src/pages/data-cleaning/DataCleaning.jsx): the
    colour of a count ratio, the width of a similarity bar, the dataset
    card titles and labels, the expand toggle of the cards, and the sample
    rows a card shows. */
module DataCleaningPage {
  import opened Common

  // ---------------------------------------------------------------------
  // Ratio colour and similarity bar
  // ---------------------------------------------------------------------

  const Red := "#dc2626"
  const Amber := "#f59e0b"
  const Green := "#059669"

  /** `getRatioColor`: red above 50, amber above 20, green otherwise. */
  function RatioColor(ratio: real): (c: string)
    ensures c == Red <==> ratio > 50.0
    ensures c == Amber <==> 20.0 < ratio <= 50.0
    ensures c == Green <==> ratio <= 20.0
  {
    if ratio > 50.0 then Red else if ratio > 20.0 then Amber else Green
  }

  /** Both thresholds are strict: 50 is amber and 20 is green. */
  lemma RatioColorBoundaries()
    ensures RatioColor(50.0) == Amber && RatioColor(20.0) == Green
  {
  }

  /** The colour only moves towards red as the ratio grows. */
  lemma RatioColorMonotone(x: real, y: real)
    requires x <= y
    ensures RatioColor(x) == Red ==> RatioColor(y) == Red
    ensures RatioColor(x) == Amber ==> RatioColor(y) != Green
  {
  }

  /** `getSimilarityWidth`: the bar is the similarity as a percentage, but
      never narrower than 20. */
  function SimilarityWidth(similarity: real): (w: real)
    ensures w >= 20.0
    ensures similarity >= 0.2 ==> w == similarity * 100.0
    ensures similarity < 0.2 ==> w == 20.0
  {
    Max(20.0, similarity * 100.0)
  }

  lemma SimilarityWidthMonotone(x: real, y: real)
    requires x <= y
    ensures SimilarityWidth(x) <= SimilarityWidth(y)
  {
  }

  // ---------------------------------------------------------------------
  // The expand toggle
  // ---------------------------------------------------------------------

  /** `expandedDataset === idx ? null : idx`. */
  function Toggled(expanded: Option<nat>, idx: nat): (r: Option<nat>)
    ensures r == Some(idx) <==> expanded != Some(idx)
    ensures r.None? <==> expanded == Some(idx)
  {
    if expanded == Some(idx) then None else Some(idx)
  }

  /** Clicking a card twice restores the previous state exactly when no
      card or that same card was expanded. */
  lemma ToggleTwice(expanded: Option<nat>, idx: nat)
    ensures Toggled(Toggled(expanded, idx), idx) == expanded <==> expanded.None? || expanded == Some(idx)
  {
  }

  /** With another card expanded, two clicks collapse everything. */
  lemma ToggleTwiceFromOther()
    ensures Toggled(Toggled(Some(1), 0), 0) == None
  {
  }

  class DataCleaningPage {
    var expandedDataset: Option<nat>

    constructor()
      ensures expandedDataset.None?
    {
      expandedDataset := None;
    }

    predicate IsExpanded(idx: nat)
      reads this
    {
      expandedDataset == Some(idx)
    }

    /** Clicking card `idx` expands it iff it was collapsed; every other
        card ends collapsed. */
    method Toggle(idx: nat)
      modifies this
      ensures expandedDataset == Toggled(old(expandedDataset), idx)
      ensures IsExpanded(idx) <==> !old(IsExpanded(idx))
      ensures forall j: nat :: j != idx ==> !IsExpanded(j)
    {
      expandedDataset := if expandedDataset == Some(idx) then None else Some(idx);
    }
  }

  // ---------------------------------------------------------------------
  // Titles, labels and samples
  // ---------------------------------------------------------------------

  /** A character `\w` matches. */
  predicate IsWordChar(c: char)
  {
    IsLetter(c) || IsDigit(c) || c == '_'
  }

  /** Position `k` starts a word: a word character with no word character
      before it, where `\b\w` matches. */
  predicate StartsWord(t: string, k: nat)
    requires k < |t|
  {
    IsWordChar(t[k]) && (k == 0 || !IsWordChar(t[k - 1]))
  }

  /** `name.replace(/_/g, " ").replace(/\b\w/g, l => l.toUpperCase())`. */
  function DatasetTitle(name: string): (r: string)
    ensures |r| == |name|
    ensures '_' !in r
  {
    var t := ReplaceChar(name, '_', ' ');
    seq(|t|, k requires 0 <= k < |t| => if StartsWord(t, k) then UpperChar(t[k]) else t[k])
  }

  /** `name.replace(/_/g, " ").toUpperCase()`. */
  function DatasetLabel(name: string): (r: string)
    ensures |r| == |name|
    ensures '_' !in r
  {
    ToUpper(ReplaceChar(name, '_', ' '))
  }

  /** Two lower-case words joined by '_' become two capitalised words. */
  lemma TitleOfTwoWords(w1: string, w2: string)
    requires |w1| > 0 && |w2| > 0
    requires forall i :: 0 <= i < |w1| ==> IsLower(w1[i])
    requires forall i :: 0 <= i < |w2| ==> IsLower(w2[i])
    ensures DatasetTitle(w1 + "_" + w2) == [UpperChar(w1[0])] + w1[1..] + " " + [UpperChar(w2[0])] + w2[1..]
  {
    var name := w1 + "_" + w2;
    var t := ReplaceChar(name, '_', ' ');
    var n := |w1|;
    var r := DatasetTitle(name);
    var e := [UpperChar(w1[0])] + w1[1..] + " " + [UpperChar(w2[0])] + w2[1..];
    assert |r| == |e| == n + 1 + |w2|;
    forall k | 0 <= k < |r|
      ensures r[k] == e[k]
    {
      if k < n {
        assert name[k] == w1[k] && t[k] == w1[k];
        assert e[k] == if k == 0 then UpperChar(w1[0]) else w1[k];
        if k > 0 {
          assert name[k - 1] == w1[k - 1] && t[k - 1] == w1[k - 1];
        }
      } else if k == n {
        assert name[k] == '_' && t[k] == ' ' && e[k] == ' ';
      } else {
        assert name[k] == w2[k - n - 1] && t[k] == w2[k - n - 1];
        assert e[k] == if k == n + 1 then UpperChar(w2[0]) else w2[k - n - 1];
        if k > n + 1 {
          assert name[k - 1] == w2[k - n - 2] && t[k - 1] == w2[k - n - 2];
        } else {
          assert t[k - 1] == ' ';
        }
      }
    }
  }

  /** The title of a dataset name. */
  lemma BiometricUpdateTitle()
    ensures DatasetTitle("biometric_update") == "Biometric Update"
  {
    var w1, w2 := "biometric", "update";
    assert w1 + "_" + w2 == "biometric_update";
    TitleOfTwoWords(w1, w2);
    assert UpperChar('b') == 'B' && UpperChar('u') == 'U';
    assert [UpperChar(w1[0])] + w1[1..] + " " + [UpperChar(w2[0])] + w2[1..] == "Biometric Update";
  }

  /** Upper-casing a character keeps it a word character, or not. */
  lemma UpperKeepsWordChar(c: char)
    ensures IsWordChar(UpperChar(c)) <==> IsWordChar(c)
  {
  }

  /** Titling a title changes nothing. */
  lemma TitleIdempotent(name: string)
    ensures DatasetTitle(DatasetTitle(name)) == DatasetTitle(name)
  {
    var r := DatasetTitle(name);
    var t := ReplaceChar(name, '_', ' ');
    assert ReplaceChar(r, '_', ' ') == r;
    forall k | 0 <= k < |r|
      ensures IsWordChar(r[k]) <==> IsWordChar(t[k])
    {
      UpperKeepsWordChar(t[k]);
    }
    forall k | 0 <= k < |r|
      ensures StartsWord(r, k) <==> StartsWord(t, k)
    {
    }
  }

  /** The label is the title upper-cased. */
  lemma LabelIsUpperTitle(name: string)
    ensures DatasetLabel(name) == ToUpper(DatasetTitle(name))
  {
  }

  /** `sample_corrections?.slice(0, 8)`: at most the first eight samples. */
  function SampleRows<T>(samples: seq<T>): (r: seq<T>)
    ensures |r| <= 8 && |r| <= |samples| && r == samples[..|r|]
    ensures |samples| >= 8 ==> |r| == 8
  {
    Take(samples, 8)
  }
}
