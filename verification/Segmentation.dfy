/**
Recognition of sensitive compounds: a component of an opaque identifier is
refused when it is a concatenation of at least two sensitive terms.
*/
module Segmentation {
  import opened Prelude

  const SENSITIVE_OPAQUE_TERMS: seq<string> :=
    ["authorization", "credentials", "credential", "identifier", "password", "debugger", "session", "refresh",
     "access", "cookie", "socket", "secret", "token", "debug", "apikey", "auth", "cdp", "sess", "api", "key", "id"]

  predicate Delimiter(c: char) { c == '_' || c == '.' || c == ':' || c == '-' }

  function Concat(parts: seq<string>): string {
    if parts == [] then "" else Concat(parts[..|parts| - 1]) + parts[|parts| - 1]
  }

  /** `parts` are listed terms that spell `s`. */
  predicate Spells(terms: seq<string>, parts: seq<string>, s: string) {
    (forall i :: 0 <= i < |parts| ==> parts[i] in terms) && Concat(parts) == s
  }

  /** Some delimiter-separated component of `value` is a concatenation of at least two listed terms. */
  ghost predicate HasCompound(terms: seq<string>, value: string) {
    exists i, j :: Component(value, i, j) && Compound(terms, value[i..j])
  }

  /** `s` is a concatenation of at least two listed terms. */
  ghost predicate Compound(terms: seq<string>, s: string) { exists parts :: |parts| >= 2 && Spells(terms, parts, s) }

  /** `value[i..j]` lies between delimiters or ends of the value and contains none. */
  predicate Component(value: string, i: int, j: int) {
    && 0 <= i <= j <= |value|
    && (i == 0 || Delimiter(value[i - 1]))
    && (j == |value| || Delimiter(value[j]))
    && forall k :: i <= k < j ==> !Delimiter(value[k])
  }

  /** `re.split` on single delimiter characters. */
  function Split(value: string): (parts: seq<string>)
    ensures parts != []
  {
    if value == "" then [""]
    else
      var front := Split(value[..|value| - 1]);
      if Delimiter(value[|value| - 1]) then front + [""]
      else front[..|front| - 1] + [front[|front| - 1] + [value[|value| - 1]]]
  }

  /** The largest number of terms that spell a prefix, if any number does. */
  ghost predicate Best(terms: seq<string>, s: string, entry: Option<nat>) {
    match entry
    case None => forall parts :: !Spells(terms, parts, s)
    case Some(n) =>
      && (exists parts :: Spells(terms, parts, s) && |parts| == n)
      && (forall parts :: Spells(terms, parts, s) ==> |parts| <= n)
  }

  /** A spelling of `c[..e]` whose last term starts before `i`, or at `i` with one of the first `j` terms. */
  ghost predicate Found(terms: seq<string>, c: string, e: nat, parts: seq<string>, i: nat, j: nat)
    requires e <= |c| && j <= |terms|
  {
    && Spells(terms, parts, c[..e])
    && (parts == [] ||
        (e - |parts[|parts| - 1]| < i) ||
        (e - |parts[|parts| - 1]| == i && parts[|parts| - 1] in terms[..j]))
  }

  /** The entry for `c[..e]` once every start before `i`, and the first `j` terms at `i`, are done. */
  ghost predicate Entry(terms: seq<string>, c: string, e: nat, entry: Option<nat>, i: nat, j: nat)
    requires e <= |c| && j <= |terms|
  {
    && (entry.Some? ==> exists parts :: Found(terms, c, e, parts, i, j) && |parts| == entry.value)
    && (forall parts :: Found(terms, c, e, parts, i, j) ==> entry.Some? && |parts| <= entry.value)
  }

  lemma ConcatLast(parts: seq<string>, c: string, e: nat)
    requires parts != [] && e <= |c| && Concat(parts) == c[..e]
    ensures var last := parts[|parts| - 1];
            |last| <= e && c[e - |last|..e] == last && Concat(parts[..|parts| - 1]) == c[..e - |last|]
  {
    var front, last := Concat(parts[..|parts| - 1]), parts[|parts| - 1];
    assert c[..e] == front + last;
    assert (front + last)[|front|..] == last && (front + last)[..|front|] == front;
    assert c[..e][|front|..] == c[|front|..e] && c[..e][..|front|] == c[..|front|];
  }

  lemma ConcatMore(parts: seq<string>, term: string, c: string, start: nat)
    requires start + |term| <= |c| && Concat(parts) == c[..start] && c[start..start + |term|] == term
    ensures Concat(parts + [term]) == c[..start + |term|]
  {
    assert (parts + [term])[..|parts|] == parts;
    assert c[..start + |term|] == c[..start] + c[start..start + |term|];
  }

  predicate NonEmptyTerms(terms: seq<string>) { forall i :: 0 <= i < |terms| ==> terms[i] != "" }

  /** When every start before `e` is done, the entry for `c[..e]` is final. */
  lemma EntryFinal(terms: seq<string>, c: string, e: nat, entry: Option<nat>)
    requires NonEmptyTerms(terms) && e <= |c| && Entry(terms, c, e, entry, e, 0)
    ensures Best(terms, c[..e], entry)
  {
    forall parts | Spells(terms, parts, c[..e]) ensures Found(terms, c, e, parts, e, 0) {
      if parts != [] { ConcatLast(parts, c, e); }
    }
  }

  /** Moving on to the next start changes nothing but the bookkeeping. */
  lemma NextStart(terms: seq<string>, c: string, e: nat, entry: Option<nat>, i: nat)
    requires e <= |c| && Entry(terms, c, e, entry, i, |terms|)
    ensures Entry(terms, c, e, entry, i + 1, 0)
  {
    assert terms[..|terms|] == terms;
    forall parts ensures Found(terms, c, e, parts, i, |terms|) <==> Found(terms, c, e, parts, i + 1, 0) {}
  }

  lemma StartIsSpelled(terms: seq<string>, c: string, e: nat, i: nat, parts: seq<string>)
    requires e <= |c| && i <= |c| && Found(terms, c, e, parts, i + 1, 0) && !Found(terms, c, e, parts, i, 0)
    ensures Spells(terms, parts[..|parts| - 1], c[..i])
  {
    ConcatLast(parts, c, e);
  }

  /** No spelling ends at `e` with a term that starts at `i`, because nothing spells `c[..i]`. */
  lemma UnreachableStart(terms: seq<string>, c: string, e: nat, entry: Option<nat>, i: nat)
    requires e <= |c| && i <= |c| && Entry(terms, c, e, entry, i, 0) && Best(terms, c[..i], None)
    ensures Entry(terms, c, e, entry, i + 1, 0)
  {
    forall parts | Found(terms, c, e, parts, i + 1, 0) ensures Found(terms, c, e, parts, i, 0) {
      if !Found(terms, c, e, parts, i, 0) { StartIsSpelled(terms, c, e, i, parts); }
    }
    if entry.Some? {
      var parts :| Found(terms, c, e, parts, i, 0) && |parts| == entry.value;
      assert Found(terms, c, e, parts, i + 1, 0);
    }
  }

  /** A term that does not occur at `i`, or ends elsewhere, adds no spelling of `c[..e]`. */
  lemma OtherEnd(terms: seq<string>, c: string, e: nat, entry: Option<nat>, i: nat, j: nat)
    requires e <= |c| && j < |terms| && Entry(terms, c, e, entry, i, j)
    requires e != i + |terms[j]| || c[i..e] != terms[j]
    ensures Entry(terms, c, e, entry, i, j + 1)
  {
    assert terms[..j + 1] == terms[..j] + [terms[j]];
    forall parts ensures Found(terms, c, e, parts, i, j) <==> Found(terms, c, e, parts, i, j + 1) {
      if Found(terms, c, e, parts, i, j + 1) && parts != [] && parts[|parts| - 1] == terms[j] && e - |terms[j]| == i {
        ConcatLast(parts, c, e);
      }
    }
  }

  /** Spellings new with term `j` at `i` extend a spelling of `c[..i]` by one. */
  lemma NewSpelling(terms: seq<string>, c: string, e: nat, count: nat, i: nat, j: nat, parts: seq<string>)
    requires e <= |c| && i <= |c| && j < |terms| && Best(terms, c[..i], Some(count))
    requires Found(terms, c, e, parts, i, j + 1) && !Found(terms, c, e, parts, i, j)
    ensures |parts| <= count + 1
  {
    ConcatLast(parts, c, e);
    assert Spells(terms, parts[..|parts| - 1], c[..i]);
  }

  lemma LongestExtended(terms: seq<string>, c: string, count: nat, i: nat, j: nat) returns (parts: seq<string>)
    requires j < |terms| && i + |terms[j]| <= |c| && c[i..i + |terms[j]|] == terms[j]
    requires Best(terms, c[..i], Some(count))
    ensures Found(terms, c, i + |terms[j]|, parts, i, j + 1) && |parts| == count + 1
  {
    var best :| Spells(terms, best, c[..i]) && |best| == count;
    ConcatMore(best, terms[j], c, i);
    parts := best + [terms[j]];
    assert terms[..j + 1][j] == terms[j];
  }

  lemma StillFound(terms: seq<string>, c: string, e: nat, i: nat, j: nat, parts: seq<string>)
    requires e <= |c| && j < |terms| && Found(terms, c, e, parts, i, j)
    ensures Found(terms, c, e, parts, i, j + 1)
  {
    assert terms[..j + 1] == terms[..j] + [terms[j]];
  }

  /** `max(entry or 0, count + 1)`. */
  function Improved(entry: Option<nat>, count: nat): Option<nat> {
    Some(if entry.Some? && entry.value > count + 1 then entry.value else count + 1)
  }

  /** A term that occurs at `i` and ends at `e` extends every spelling of `c[..i]` by one. */
  lemma TermEnds(terms: seq<string>, c: string, e: nat, entry: Option<nat>, count: nat, i: nat, j: nat)
    requires e <= |c| && i <= |c| && j < |terms| && Entry(terms, c, e, entry, i, j) && Best(terms, c[..i], Some(count))
    requires e == i + |terms[j]| && c[i..e] == terms[j]
    ensures Entry(terms, c, e, Improved(entry, count), i, j + 1)
  {
    var longest := LongestExtended(terms, c, count, i, j);
    if entry.Some? && entry.value > count + 1 {
      var parts :| Found(terms, c, e, parts, i, j) && |parts| == entry.value;
      StillFound(terms, c, e, i, j, parts);
    }
    forall parts | Found(terms, c, e, parts, i, j + 1) ensures |parts| <= Improved(entry, count).value {
      if !Found(terms, c, e, parts, i, j) { NewSpelling(terms, c, e, count, i, j, parts); }
    }
  }

  /** Entries before `start` are final, the others account for every start before it. */
  ghost predicate Table(terms: seq<string>, c: string, counts: seq<Option<nat>>, start: nat) {
    && |counts| == |c| + 1
    && (forall e :: 0 <= e < start && e <= |c| ==> Best(terms, c[..e], counts[e]))
    && (forall e :: start <= e <= |c| ==> Entry(terms, c, e, counts[e], start, 0))
  }

  /** The entries behind `start` once the first `j` terms at `start` are done; the others stand as before. */
  ghost predicate Scanned(terms: seq<string>, c: string, before: seq<Option<nat>>, counts: seq<Option<nat>>,
      start: nat, j: nat)
    requires j <= |terms|
  {
    && |counts| == |before| == |c| + 1
    && (forall e :: 0 <= e <= start && e <= |c| ==> counts[e] == before[e])
    && (forall e :: start < e <= |c| ==> Entry(terms, c, e, counts[e], start, j))
  }

  predicate Occurs(c: string, start: nat, term: string) { start + |term| <= |c| && c[start..start + |term|] == term }

  /** The table after one more term is tried at `start`. */
  function Extended(c: string, counts: seq<Option<nat>>, start: nat, term: string, count: nat): seq<Option<nat>>
    requires |counts| == |c| + 1
  {
    if Occurs(c, start, term) then counts[start + |term| := Improved(counts[start + |term|], count)] else counts
  }

  lemma TermScanned(terms: seq<string>, c: string, before: seq<Option<nat>>, counts: seq<Option<nat>>, start: nat,
      j: nat, count: nat)
    requires NonEmptyTerms(terms) && j < |terms| && start <= |c| && Best(terms, c[..start], Some(count))
    requires Scanned(terms, c, before, counts, start, j)
    ensures Scanned(terms, c, before, Extended(c, counts, start, terms[j], count), start, j + 1)
  {
    forall e | start < e <= |c|
      ensures Entry(terms, c, e, Extended(c, counts, start, terms[j], count)[e], start, j + 1)
    {
      EntryScanned(terms, c, e, counts, start, j, count);
    }
  }

  lemma EntryScanned(terms: seq<string>, c: string, e: nat, counts: seq<Option<nat>>, start: nat, j: nat, count: nat)
    requires j < |terms| && start < e <= |c| == |counts| - 1 && Best(terms, c[..start], Some(count))
    requires Entry(terms, c, e, counts[e], start, j)
    ensures Entry(terms, c, e, Extended(c, counts, start, terms[j], count)[e], start, j + 1)
  {
    var after := ExtendedAt(c, counts, start, terms[j], count, e);
    if Occurs(c, start, terms[j]) && e == start + |terms[j]| { TermEnds(terms, c, e, counts[e], count, start, j); }
    else { OtherEnd(terms, c, e, counts[e], start, j); }
  }

  /** Only the entry where the term ends is touched. */
  lemma ExtendedAt(c: string, counts: seq<Option<nat>>, start: nat, term: string, count: nat, e: nat)
      returns (after: Option<nat>)
    requires |counts| == |c| + 1 && e <= |c|
    ensures after == Extended(c, counts, start, term, count)[e]
    ensures Occurs(c, start, term) && e == start + |term| ==> after == Improved(counts[e], count) && c[start..e] == term
    ensures !(Occurs(c, start, term) && e == start + |term|) ==>
              after == counts[e] && (e == start + |term| ==> c[start..e] != term)
  {
    after := Extended(c, counts, start, term, count)[e];
  }

  lemma ScanBegins(terms: seq<string>, c: string, before: seq<Option<nat>>, start: nat)
    requires NonEmptyTerms(terms) && start <= |c| && Table(terms, c, before, start)
    ensures |before| == |c| + 1
    ensures Scanned(terms, c, before, before, start, 0)
    ensures Best(terms, c[..start], before[start])
  {
    EntryFinal(terms, c, start, before[start]);
  }

  /** With every term at `start` done the table moves on. */
  lemma TableNext(terms: seq<string>, c: string, before: seq<Option<nat>>, counts: seq<Option<nat>>, start: nat)
    requires NonEmptyTerms(terms) && start <= |c| && Table(terms, c, before, start)
    requires Scanned(terms, c, before, counts, start, |terms|)
    ensures Table(terms, c, counts, start + 1)
  {
    EntryFinal(terms, c, start, before[start]);
    forall e | start < e <= |c| ensures Entry(terms, c, e, counts[e], start + 1, 0) {
      NextStart(terms, c, e, counts[e], start);
    }
  }

  lemma TableSkips(terms: seq<string>, c: string, counts: seq<Option<nat>>, start: nat)
    requires NonEmptyTerms(terms) && start <= |c| && Table(terms, c, counts, start) && counts[start].None?
    ensures Table(terms, c, counts, start + 1)
  {
    EntryFinal(terms, c, start, counts[start]);
    forall e | start < e <= |c| ensures Entry(terms, c, e, counts[e], start + 1, 0) {
      UnreachableStart(terms, c, e, counts[e], start);
    }
  }

  /** One term: if it occurs at `start` the entry behind it may improve. */
  method TryTerm(c: string, counts: array<Option<nat>>, start: nat, term: string, count: nat)
    requires counts.Length == |c| + 1
    modifies counts
    ensures counts[..] == Extended(c, old(counts[..]), start, term, count)
  {
    var end := start + |term|;
    if end <= |c| && c[start..end] == term { counts[end] := Improved(counts[end], count); }
  }

  /** The inner loop: every term that occurs at `start`. */
  method ExtendFrom(terms: seq<string>, c: string, counts: array<Option<nat>>, start: nat, count: nat)
    requires NonEmptyTerms(terms) && start <= |c| && counts.Length == |c| + 1 && counts[start] == Some(count)
    requires Table(terms, c, counts[..], start)
    modifies counts
    ensures Table(terms, c, counts[..], start + 1)
  {
    ghost var before := counts[..];
    ScanBegins(terms, c, before, start);
    for j := 0 to |terms|
      invariant counts.Length == |c| + 1 && Scanned(terms, c, before, counts[..], start, j)
    {
      TermScanned(terms, c, before, counts[..], start, j, count);
      TryTerm(c, counts, start, terms[j], count);
    }
    TableNext(terms, c, before, counts[..], start);
  }

  /** The table of one component, filled in place while it is scanned: each entry ends up as the largest
      number of terms whose concatenation is that prefix, or none. */
  method TermCounts(terms: seq<string>, c: string) returns (counts: array<Option<nat>>)
    requires NonEmptyTerms(terms)
    ensures fresh(counts) && counts.Length == |c| + 1
    ensures forall e :: 0 <= e <= |c| ==> Best(terms, c[..e], counts[e])
  {
    counts := new Option<nat>[|c| + 1](_ => None);
    counts[0] := Some(0);
    Initially(terms, c, counts[..]);
    for start := 0 to |c| + 1
      invariant Table(terms, c, counts[..], start)
    {
      if counts[start].Some? { ExtendFrom(terms, c, counts, start, counts[start].value); }
      else { TableSkips(terms, c, counts[..], start); }
    }
  }

  lemma Initially(terms: seq<string>, c: string, counts: seq<Option<nat>>)
    requires NonEmptyTerms(terms) && |counts| == |c| + 1 && counts[0] == Some(0)
    requires forall e :: 1 <= e <= |c| ==> counts[e] == None
    ensures Table(terms, c, counts, 0)
  {
    assert Found(terms, c, 0, [], 0, 0);
    forall e, parts | 0 <= e <= |c| && Found(terms, c, e, parts, 0, 0) ensures e == 0 && parts == [] {
      if parts != [] { ConcatLast(parts, c, e); }
    }
  }

  /** `Split` yields exactly the components of the value. */
  lemma {:induction false} SplitComponents(value: string, part: string)
    ensures part in Split(value) <==> exists i, j :: Component(value, i, j) && value[i..j] == part
  {
    var parts := Split(value);
    if part in parts {
      var k :| 0 <= k < |parts| && parts[k] == part;
      var i, j := PartAt(value, k);
    }
    forall i, j | Component(value, i, j) && value[i..j] == part ensures part in parts {
      var k := ComponentIsPart(value, i, j);
    }
  }

  lemma {:induction false} PartAt(value: string, k: nat) returns (i: nat, j: nat)
    requires k < |Split(value)|
    ensures i <= j <= |value| && Component(value, i, j) && value[i..j] == Split(value)[k]
    ensures j == |value| <==> k == |Split(value)| - 1
  {
    if value == "" { i, j := 0, 0; }
    else {
      var n := |value| - 1;
      var shorter := value[..n];
      var front := Split(shorter);
      if k < |front| {
        i, j := PartAt(shorter, k);
        if Delimiter(value[n]) || k < |front| - 1 { ShorterComponent(value, i, j); }
        else {
          LastGrows(value, i);
          j := n + 1;
        }
      } else {
        i, j := n + 1, n + 1;
      }
    }
  }

  /** A component that the last character does not touch. */
  lemma ShorterComponent(value: string, i: nat, j: nat)
    requires value != "" && Component(value[..|value| - 1], i, j) && (j == |value| - 1 ==> Delimiter(value[j]))
    ensures Component(value, i, j) && value[i..j] == value[..|value| - 1][i..j]
  {}

  /** The last component takes in a last character that is no delimiter. */
  lemma LastGrows(value: string, i: nat)
    requires value != "" && Component(value[..|value| - 1], i, |value| - 1) && !Delimiter(value[|value| - 1])
    ensures Component(value, i, |value|) && value[i..] == value[..|value| - 1][i..] + [value[|value| - 1]]
  {}

  lemma {:induction false} ComponentIsPart(value: string, i: nat, j: nat) returns (k: nat)
    requires Component(value, i, j)
    ensures k < |Split(value)| && Split(value)[k] == value[i..j]
    ensures j == |value| <==> k == |Split(value)| - 1
  {
    if value == "" { k := 0; }
    else {
      var n := |value| - 1;
      var shorter := value[..n];
      SplitNext(value);
      if j <= n {
        ComponentOfShorter(value, i, j);
        k := ComponentIsPart(shorter, i, j);
      } else if i == n + 1 {
        k := |Split(value)| - 1;
        assert value[i..j] == "";
      } else {
        LastShrinks(value, i);
        k := ComponentIsPart(shorter, i, n);
      }
    }
  }

  /** One more character: a delimiter opens a part, any other joins the last one. */
  lemma SplitNext(value: string)
    requires value != ""
    ensures var front, c := Split(value[..|value| - 1]), value[|value| - 1];
            if Delimiter(c) then
              Split(value) == front + [""]
            else
              && |Split(value)| == |front|
              && (forall k :: 0 <= k < |front| - 1 ==> Split(value)[k] == front[k])
              && Split(value)[|front| - 1] == front[|front| - 1] + [c]
  {}

  lemma ComponentOfShorter(value: string, i: nat, j: nat)
    requires Component(value, i, j) && j < |value|
    ensures Component(value[..|value| - 1], i, j) && value[..|value| - 1][i..j] == value[i..j]
  {}

  lemma LastShrinks(value: string, i: nat)
    requires Component(value, i, |value|) && i < |value|
    ensures var n := |value| - 1;
            Component(value[..n], i, n) && value[i..] == value[..n][i..] + [value[n]] && !Delimiter(value[n])
  {}

  /** One component: the last entry of its table decides. */
  method IsCompound(terms: seq<string>, c: string) returns (compound: bool)
    requires NonEmptyTerms(terms)
    ensures compound <==> Compound(terms, c)
  {
    var counts := TermCounts(terms, c);
    var last := counts[|c|];
    BestTells(terms, c, last);
    return last.Some? && last.value >= 2;
  }

  /** `_contains_sensitive_opaque_compound`, on a value already in lower case. */
  method ContainsSensitiveOpaqueCompound(terms: seq<string>, value: string) returns (found: bool)
    requires NonEmptyTerms(terms)
    ensures found <==> HasCompound(terms, value)
  {
    CompoundIsComponent(terms, value, Split(value));
    found := AnyIsCompound(terms, Split(value));
  }

  ghost predicate AnyCompound(terms: seq<string>, components: seq<string>) {
    exists k :: 0 <= k < |components| && Compound(terms, components[k])
  }

  /** The loop over the components, which stops at the first compound. */
  method AnyIsCompound(terms: seq<string>, components: seq<string>) returns (found: bool)
    requires NonEmptyTerms(terms)
    ensures found <==> AnyCompound(terms, components)
  {
    for n := 0 to |components|
      invariant forall k :: 0 <= k < n ==> !Compound(terms, components[k])
    {
      var compound := IsCompound(terms, components[n]);
      if compound { return true; }
    }
    return false;
  }

  /** A value has a sensitive compound exactly when one of its split components is one. */
  lemma CompoundIsComponent(terms: seq<string>, value: string, components: seq<string>)
    requires components == Split(value)
    ensures HasCompound(terms, value) <==> AnyCompound(terms, components)
  {
    if k :| 0 <= k < |components| && Compound(terms, components[k]) { var i, j := PartAt(value, k); }
    if i, j :| Component(value, i, j) && Compound(terms, value[i..j]) { var k := ComponentIsPart(value, i, j); }
  }

  /** The last table entry tells whether two terms or more spell the component. */
  lemma BestTells(terms: seq<string>, c: string, entry: Option<nat>)
    requires Best(terms, c[..|c|], entry)
    ensures Compound(terms, c) <==> entry.Some? && entry.value >= 2
  {
    assert c[..|c|] == c;
  }

  /** The terms the collector guards are all non-empty. */
  lemma SensitiveTermsNonEmpty()
    ensures NonEmptyTerms(SENSITIVE_OPAQUE_TERMS)
  {}
}
