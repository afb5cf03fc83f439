/** The history vault: a selection of at most two reports for comparison,
    the compare action, and the newest-first listing with its score colours
    and mode icons. */
module HistoryList {

  import opened Wrappers
  import opened Types
  import opened Seqs
  import opened Text

  /** The next value of `selectedIds` after clicking the box of report `id`:
      a selected id is removed; a new id is added while fewer than two are
      selected and ignored otherwise. */
  function ToggleSelect(prev: seq<string>, id: string): (next: seq<string>)
    ensures id in prev ==> id !in next && IsSubsequence(next, prev)
    ensures id in prev ==> forall x :: x != id ==> (x in next <==> x in prev)
    ensures id !in prev && |prev| < 2 ==> next == prev + [id]
    ensures id !in prev && |prev| >= 2 ==> next == prev
    ensures |prev| <= 2 ==> |next| <= 2
    ensures NoDup(prev) ==> NoDup(next)
  {
    if id in prev then
      var keep := (x: string) => x != id;
      FilterNoDup(prev, keep);
      Filter(prev, keep)
    else if |prev| < 2 then prev + [id]
    else prev
  }

  /** `handleCompareClick`'s lookup: the reports whose ids are selected first
      and second, when both are in the history. */
  function ComparePair(history: seq<AnalysisResult>, selected: seq<string>): (r: Option<(AnalysisResult, AnalysisResult)>)
    ensures r.Some? <==> |selected| >= 2
                         && (exists i :: 0 <= i < |history| && history[i].id == selected[0])
                         && (exists j :: 0 <= j < |history| && history[j].id == selected[1])
    ensures r.Some? ==> r.value.0 in history && r.value.0.id == selected[0]
                        && r.value.1 in history && r.value.1.id == selected[1]
    ensures r.Some? ==> exists i :: 0 <= i < |history| && history[i] == r.value.0
                                    && forall j :: 0 <= j < i ==> history[j].id != selected[0]
    ensures r.Some? ==> exists i :: 0 <= i < |history| && history[i] == r.value.1
                                    && forall j :: 0 <= j < i ==> history[j].id != selected[1]
  {
    if |selected| < 2 then None
    else
      match (FindReport(history, selected[0]), FindReport(history, selected[1]))
      case (Some(p1), Some(p2)) => Some((p1, p2))
      case _ => None
  }

  /** The sort key of the listing. */
  function TimestampKey(r: AnalysisResult): real
  {
    r.timestamp as real
  }

  /** `[...history].sort((a, b) => b.timestamp - a.timestamp)`: the same
      reports, newest first. */
  function SortedHistory(history: seq<AnalysisResult>): (r: seq<AnalysisResult>)
    ensures multiset(r) == multiset(history)
    ensures forall i, j :: 0 <= i < j < |r| ==> r[i].timestamp >= r[j].timestamp
  {
    var r := SortDesc(history, TimestampKey);
    assert forall i, j :: 0 <= i < j < |r| ==> TimestampKey(r[i]) >= TimestampKey(r[j]);
    r
  }

  /** The colour of a score in the list: emerald below 40, amber below 70,
      red from 70 up. */
  function ScoreColor(failureRiskScore: int): (c: Color)
    ensures c == Emerald <==> failureRiskScore < 40
    ensures c == Amber <==> 40 <= failureRiskScore < 70
    ensures c == Red <==> 70 <= failureRiskScore
  {
    if failureRiskScore < 40 then Emerald
    else if failureRiskScore < 70 then Amber
    else Red
  }

  /** The icon shown beside a report. */
  datatype Icon = LinkIcon | KeyboardIcon

  /** Of the two mode labels, only the link-based one contains "LINK". */
  lemma LinkInLabelIffLinkBased(m: AnalysisMode)
    ensures Contains(ModeLabel(m), "LINK") <==> m == LinkBased
  {
    var text := ModeLabel(m);
    if m == LinkBased {
      ContainsAt(text, "LINK", 0);
    } else {
      assert 'K' !in text;
      MissingCharNotContained(text, "LINK", 'K');
    }
  }

  /** `selectedMode.includes('LINK')` picks the link icon, which for the two
      mode labels is exactly the link-based mode. */
  function ModeIcon(r: AnalysisResult): (icon: Icon)
    ensures icon == LinkIcon <==> r.selectedMode == LinkBased
  {
    LinkInLabelIffLinkBased(r.selectedMode);
    if Contains(ModeLabel(r.selectedMode), "LINK") then LinkIcon else KeyboardIcon
  }

  /** The history view's own state: the ids ticked for comparison. */
  class Selection {
    var selectedIds: seq<string>

    /** At most two ids, none twice. */
    ghost predicate Valid()
      reads this
    {
      |selectedIds| <= 2 && NoDup(selectedIds)
    }

    constructor ()
      ensures Valid() && selectedIds == []
    {
      selectedIds := [];
    }

    /** `toggleSelect`. */
    method Toggle(id: string)
      requires Valid()
      modifies this
      ensures Valid()
      ensures selectedIds == ToggleSelect(old(selectedIds), id)
    {
      selectedIds := ToggleSelect(selectedIds, id);
    }

    /** The compare button is rendered only with exactly two ids ticked. */
    predicate CompareButtonShown(): (shown: bool)
      reads this
      ensures shown <==> |selectedIds| == 2
      ensures Valid() && shown ==> selectedIds[0] != selectedIds[1]
    {
      |selectedIds| == 2
    }

    /** `handleCompareClick`: the pair handed to `onCompare`, in selection
        order, or none when fewer than two ids are ticked (the missing index
        reads as `undefined`, which matches no report) or an id no longer
        resolves. */
    method CompareClick(history: seq<AnalysisResult>) returns (pair: Option<(AnalysisResult, AnalysisResult)>)
      ensures pair == ComparePair(history, selectedIds)
      ensures pair.Some? ==> |selectedIds| >= 2 && pair.value.0.id == selectedIds[0] && pair.value.1.id == selectedIds[1]
    {
      var p1 := if |selectedIds| > 0 then FindReport(history, selectedIds[0]) else None;
      var p2 := if |selectedIds| > 1 then FindReport(history, selectedIds[1]) else None;
      if p1.Some? && p2.Some? {
        pair := Some((p1.value, p2.value));
      } else {
        pair := None;
      }
    }
  }
}
