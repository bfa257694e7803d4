/**
  From a server's RUNNER_LABELS setting to the routing of a job: parse, enrol,
  store, read back; and the rule shown in Slack against the filter of a claim.
*/
module Routing {
  import opened Options
  import opened Queue
  import opened Stores
  import opened Edges
  import opened Text

  /** The setting: comma-separated, each part stripped, empty parts dropped. */
  function ParseLabels(raw: string): seq<string> { StripAll(Split(raw, ',')) }

  function StripAll(parts: seq<string>): seq<string> {
    if parts == [] then []
    else if Strip(parts[0]) == "" then StripAll(parts[1..])
    else [Strip(parts[0])] + StripAll(parts[1..])
  }

  /** The texts between the commas, each with whitespace around what is meant. */
  function Padded(l: seq<string>, meant: seq<string>, r: seq<string>): seq<string>
    requires |l| == |meant| == |r|
  {
    seq(|meant|, n requires 0 <= n < |meant| => l[n] + meant[n] + r[n])
  }

  lemma {:induction false} StripAllPadded(l: seq<string>, meant: seq<string>, r: seq<string>)
    requires |l| == |meant| == |r|
    requires forall n | 0 <= n < |meant| :: AllSpace(l[n]) && AllSpace(r[n]) && (meant[n] == "" || Trimmed(meant[n]))
    ensures StripAll(Padded(l, meant, r)) == NonEmpty(meant)
  {
    if meant != [] {
      StripPadded(l[0], meant[0], r[0]);
      StripAllPadded(l[1..], meant[1..], r[1..]);
      assert Padded(l, meant, r)[1..] == Padded(l[1..], meant[1..], r[1..]);
    }
  }

  /**
    What a setting means: whoever writes labels with commas between them and
    whitespace around them gets those labels, in that order, without the blanks.
  */
  lemma SettingMeans(l: seq<string>, meant: seq<string>, r: seq<string>)
    requires 0 < |l| == |meant| == |r| && AllFree(meant, ',')
    requires forall n | 0 <= n < |meant| :: AllSpace(l[n]) && AllSpace(r[n]) && (meant[n] == "" || Trimmed(meant[n]))
    ensures ParseLabels(Join(Padded(l, meant, r), ',')) == NonEmpty(meant)
  {
    var parts := Padded(l, meant, r);
    forall p | p in parts ensures Free(p, ',') {
      var n :| 0 <= n < |parts| && parts[n] == p;
      assert meant[n] in meant;
      assert p == l[n] + meant[n] + r[n];
    }
    SplitJoin(parts, ',');
    StripAllPadded(l, meant, r);
  }

  /** What is stored are the labels themselves in code-point order, a comma between each two. */
  lemma StoredInOrder(labels: seq<string>)
    requires labels != [] && AllFree(labels, ',')
    ensures InOrder(Split(Stored(labels), ',')) && multiset(Split(Stored(labels), ',')) == multiset(labels)
  {
    SortedFacts(labels);
    SortedMembers(labels);
    SplitJoin(Sorted(labels), ',');
  }

  lemma ReadBackIsCommaFree(stored: string)
    ensures AllFree(ReadBack(stored), ',')
  {
    SplitFree(stored, ',');
  }

  /** Storing and reading back keeps the label set exactly when no label holds a comma. */
  lemma LabelsSurviveExactly(labels: seq<string>)
    ensures Wanted(ReadBack(Stored(labels))) == Wanted(labels) <==> AllFree(labels, ',')
  {
    SortedMembers(labels);
    if AllFree(labels, ',') {
      if labels == [] {
        assert Split("", ',') == [""];
        assert Wanted(ReadBack(Stored(labels))) == {};
      } else {
        assert AllFree(Sorted(labels), ',');
        SplitJoin(Sorted(labels), ',');
        assert Wanted(ReadBack(Stored(labels))) == Wanted(labels);
      }
    } else {
      var x :| x in labels && !Free(x, ',');
      ReadBackIsCommaFree(Stored(labels));
      assert x in Wanted(labels) && x !in Wanted(ReadBack(Stored(labels)));
    }
  }

  lemma {:induction false} StripAllFacts(parts: seq<string>)
    ensures forall x | x in StripAll(parts) :: x != "" && Strip(x) == x
    ensures AllFree(parts, ',') ==> AllFree(StripAll(parts), ',')
  {
    if parts != [] {
      StripAllFacts(parts[1..]);
      StripFacts(parts[0]);
      assert parts[0] in parts && forall p | p in parts[1..] :: p in parts;
    }
  }

  lemma {:induction false} KeptLabelsOfStripped(labels: seq<string>)
    requires forall x | x in labels :: x != "" && Strip(x) == x
    ensures KeptLabels(labels) == labels
  {
    if labels != [] {
      assert labels == [labels[0]] + labels[1..];
      assert forall x | x in labels[1..] :: x in labels;
      KeptLabelsOfStripped(labels[1..]);
    }
  }

  /** Whatever a server was configured with, the edge reads back the same label set. */
  lemma SettingSurvives(raw: string)
    ensures Wanted(ReadBack(Stored(KeptLabels(ParseLabels(raw))))) == set x | x in ParseLabels(raw)
    ensures AllFree(ParseLabels(raw), ',')
  {
    SplitFree(raw, ',');
    StripAllFacts(Split(raw, ','));
    KeptLabelsOfStripped(ParseLabels(raw));
    LabelsSurviveExactly(ParseLabels(raw));
    assert Wanted(ParseLabels(raw)) == set x | x in ParseLabels(raw);
  }

  /** The rule behind the reply in Slack: a server without labels, or with this one. */
  predicate ShownEligible(row: RunnerRow, server: string) {
    StoredLabels(row) == [] || server in StoredLabels(row)
  }

  /**
    Slack is told a server can take a job exactly when the claim filter lets it:
    if the job is the only one queued, such a server's claim returns it, and any
    other server's claim returns nothing.
  */
  lemma ShownIsRouted(row: RunnerRow, t: Table, id: JobId)
    requires id in t && t[id].state == Queued
    requires forall other | other in t && other != id :: t[other].state != Queued
    ensures ShownEligible(row, t[id].job.server) <==> Eligible(t[id], Wanted(StoredLabels(row)))
    ensures ShownEligible(row, t[id].job.server) <==> PickOK(t, Wanted(StoredLabels(row)), Some(id))
    ensures !ShownEligible(row, t[id].job.server) <==> PickOK(t, Wanted(StoredLabels(row)), None)
  {
    var labels := StoredLabels(row);
    assert Wanted(labels) == set x | x in labels;
    if labels != [] {
      assert labels[0] in Wanted(labels);
    }
    assert ShownEligible(row, t[id].job.server) <==> Eligible(t[id], Wanted(labels));
  }

  /** End to end: a job reaches a server exactly if its setting names the environment or names none. */
  lemma SettingRoutes(raw: string, row: RunnerRow, r: Row)
    requires row.labels == Stored(KeptLabels(ParseLabels(raw))) && r.state == Queued
    ensures Eligible(r, Wanted(StoredLabels(row))) <==> ParseLabels(raw) == [] || r.job.server in ParseLabels(raw)
  {
    SettingSurvives(raw);
    var labels := set x | x in ParseLabels(raw);
    assert Wanted(StoredLabels(row)) == labels;
    if ParseLabels(raw) != [] {
      assert ParseLabels(raw)[0] in labels;
    }
  }
}
