/**
Public names of report archives.  The publication model follows one archive at
a time; this module says when two archives of a date directory really have no
name in common.
*/
module ArchiveNames {
  const INITIAL := "initial"
  const COMPLETE := "complete"

  predicate IdChar(c: char) {
    'A' <= c <= 'Z' || 'a' <= c <= 'z' || '0' <= c <= '9'
  }

  /** One alphanumeric character followed by at most 63 of `[A-Za-z0-9_-]`. */
  predicate ValidRunId(s: string) {
    && 1 <= |s| <= 64
    && IdChar(s[0])
    && forall i :: 1 <= i < |s| ==> IdChar(s[i]) || s[i] == '_' || s[i] == '-'
  }

  predicate ReportType(s: string) { s == "premarket" || s == "review" || s == "failure" }

  datatype Kind = Markdown | Json | Marker

  function Stem(reportType: string, runId: string): string {
    reportType + Suffix(runId)
  }

  function Suffix(runId: string): string {
    if runId == INITIAL then "" else "." + runId
  }

  function PublicName(reportType: string, runId: string, kind: Kind): string {
    Stem(reportType, runId) + Extension(kind)
  }

  function Extension(kind: Kind): string {
    match kind case Markdown => ".md" case Json => ".json" case Marker => ".complete.json"
  }

  /** Names that end alike begin alike. */
  lemma Unsuffix(a: string, b: string, suffix: string)
    requires a + suffix == b + suffix
    ensures a == b
  {
    assert |a| == |b|;
    assert a == (a + suffix)[..|a|] && b == (b + suffix)[..|b|];
  }

  lemma StemsDiffer(t: string, r1: string, r2: string)
    requires ValidRunId(r1) && ValidRunId(r2) && Stem(t, r1) == Stem(t, r2)
    ensures r1 == r2
  {
    assert Stem(t, r1)[|t|..] == Suffix(r1) && Stem(t, r2)[|t|..] == Suffix(r2);
    if r1 != INITIAL && r2 != INITIAL {
      assert Suffix(r1)[1..] == r1 && Suffix(r2)[1..] == r2;
    }
  }

  /** A run identifier has no dot, so only the run called "complete" can spell the initial marker. */
  lemma SuffixSpells(r1: string, r2: string)
    requires ValidRunId(r1) && ValidRunId(r2)
    ensures Suffix(r1) == Suffix(r2) + ".complete" <==> r1 == COMPLETE && r2 == INITIAL
  {
    var spelled := Suffix(r2) + ".complete";
    if r1 == INITIAL { assert |Suffix(r1)| < |spelled|; }
    else if r2 == INITIAL { assert Suffix(r1)[1..] == r1 && spelled[1..] == COMPLETE; }
    else {
      assert spelled[|r2| + 1] == '.';
      if |r1| > |r2| { assert Suffix(r1)[|r2| + 1] == r1[|r2|] != '.'; }
    }
  }

  /** The marker's name ends in ".json" after a longer stem. */
  lemma MarkerIsLongerJson(t: string, r: string)
    ensures PublicName(t, r, Marker) == (t + (Suffix(r) + ".complete")) + ".json"
  {
    assert ".complete.json" == ".complete" + ".json";
    Reassociate(t, Suffix(r), ".complete", ".json");
  }

  lemma Reassociate(a: string, b: string, c: string, d: string)
    ensures (a + b) + (c + d) == (a + (b + c)) + d
  {}

  lemma Unprefix(prefix: string, a: string, b: string)
    requires prefix + a == prefix + b
    ensures a == b
  {
    assert a == (prefix + a)[|prefix|..] && b == (prefix + b)[|prefix|..];
  }

  lemma JsonSpellsMarker(t: string, r1: string, r2: string)
    requires ValidRunId(r1) && ValidRunId(r2)
    ensures PublicName(t, r1, Json) == PublicName(t, r2, Marker) <==> r1 == COMPLETE && r2 == INITIAL
  {
    var spelled := Suffix(r2) + ".complete";
    SuffixSpells(r1, r2);
    MarkerIsLongerJson(t, r2);
    if PublicName(t, r1, Json) == PublicName(t, r2, Marker) {
      Unsuffix(t + Suffix(r1), t + spelled, ".json");
      Unprefix(t, Suffix(r1), spelled);
    }
  }

  lemma SameKindDiffers(t: string, r1: string, r2: string, kind: Kind)
    requires ValidRunId(r1) && ValidRunId(r2) && r1 != r2
    ensures PublicName(t, r1, kind) != PublicName(t, r2, kind)
  {
    if PublicName(t, r1, kind) == PublicName(t, r2, kind) {
      Unsuffix(Stem(t, r1), Stem(t, r2), Extension(kind));
      StemsDiffer(t, r1, r2);
    }
  }

  lemma LastLetter(t: string, r: string, kind: Kind)
    ensures var n := PublicName(t, r, kind); n[|n| - 1] == (if kind == Markdown then 'd' else 'n')
  {}

  /** Two different archives of one report type share a public name exactly when one is the initial run
      and the other is the run called "complete"; every other pair is disjoint. */
  lemma ArchivesShareName(t: string, r1: string, r2: string)
    requires ValidRunId(r1) && ValidRunId(r2) && r1 != r2
    ensures (exists k1, k2 :: PublicName(t, r1, k1) == PublicName(t, r2, k2)) <==>
            (r1 == INITIAL && r2 == COMPLETE) || (r1 == COMPLETE && r2 == INITIAL)
  {
    JsonSpellsMarker(t, r1, r2);
    JsonSpellsMarker(t, r2, r1);
    forall k1, k2 | PublicName(t, r1, k1) == PublicName(t, r2, k2)
      ensures (r1 == INITIAL && r2 == COMPLETE) || (r1 == COMPLETE && r2 == INITIAL)
    {
      if k1 == k2 { SameKindDiffers(t, r1, r2, k1); }
      LastLetter(t, r1, k1);
      LastLetter(t, r2, k2);
    }
  }

  /** Archives of different report types never share a public name. */
  lemma TypesApart(t1: string, t2: string, r1: string, r2: string, k1: Kind, k2: Kind)
    requires ReportType(t1) && ReportType(t2) && t1 != t2
    ensures PublicName(t1, r1, k1) != PublicName(t2, r2, k2)
  {
    assert PublicName(t1, r1, k1)[0] == t1[0] && PublicName(t2, r2, k2)[0] == t2[0];
  }
}
