/** The host matcher of the TLS ask webhook: it recovers the organization name from a host that was
    produced by the gateway host format. */
module HostNames {
  import opened Prelude
  import opened Text

  predicate Matches(want: seq<string>, have: seq<string>) {
    |want| == |have| && forall i :: 0 <= i < |want| && !IsPlaceholder(want[i]) ==> want[i] == have[i]
  }

  /** The label of the host at the first placeholder, when every other label agrees. */
  ghost predicate IsOrgName(want: seq<string>, have: seq<string>, found: Option<string>) {
    match found
    case Some(name) =>
      Matches(want, have)
      && exists k :: 0 <= k < |want| && IsPlaceholder(want[k]) && name == have[k]
                     && forall i :: 0 <= i < k ==> !IsPlaceholder(want[i])
    case None =>
      Matches(want, have) ==> forall i :: 0 <= i < |want| ==> !IsPlaceholder(want[i])
  }

  method GetOrgName(want: string, have: string) returns (found: Option<string>)
    ensures IsOrgName(Split(want, '.'), Split(have, '.'), found)
  {
    var w, h := Split(want, '.'), Split(have, '.');
    found := None;
    if |w| == 0 || |w| != |h| {
      return None;
    }
    var i := |w| - 1;
    ghost var first := i;
    while i >= 0
      invariant -1 <= i < |w|
      invariant forall j :: i < j < |w| && !IsPlaceholder(w[j]) ==> w[j] == h[j]
      invariant found.None? ==> forall j :: i < j < |w| ==> !IsPlaceholder(w[j])
      invariant found.Some? ==> i < first < |w| && IsPlaceholder(w[first]) && found.value == h[first]
                                && forall j :: i < j < first ==> !IsPlaceholder(w[j])
    {
      var wp, hp := w[i], h[i];
      if IsPlaceholder(wp) {
        found, first := Some(hp), i;
      } else if wp != hp {
        return None;
      }
      i := i - 1;
    }
  }

  /** What the matcher returns is determined by its specification. */
  lemma OrgNameUnique(want: seq<string>, have: seq<string>, a: Option<string>, b: Option<string>)
    requires IsOrgName(want, have, a) && IsOrgName(want, have, b)
    ensures a == b
  {}

  /** Label `k` of the format is its only placeholder and the other labels are literal. */
  ghost predicate OnePlaceholder(format: string, k: nat) {
    var labels := Split(format, '.');
    k < |labels| && IsPlaceholder(labels[k])
    && forall i :: 0 <= i < |labels| && i != k ==> '%' !in labels[i]
  }

  ghost predicate HostFormat(format: string) {
    exists k: nat :: OnePlaceholder(format, k)
  }

  lemma PlaceholderShowsPercent(labels: seq<string>)
    ensures forall i :: 0 <= i < |labels| && IsPlaceholder(labels[i]) ==> '%' in labels[i]
  {
    forall i | 0 <= i < |labels| && IsPlaceholder(labels[i]) ensures '%' in labels[i] {
      assert labels[i][0] == '%';
    }
  }

  lemma FormatLabels(format: string, k: nat, name: string)
    requires OnePlaceholder(format, k) && '.' !in name
    ensures Supported(format)
    ensures Split(Sprintf(format, name), '.') == Split(format, '.')[k := name]
  {
    var labels := Split(format, '.');
    JoinSplit(format, '.');
    SprintfLabels(labels, k, '.', name);
    SplitJoin(labels[k := name], '.');
  }

  /** Matching undoes formatting. */
  lemma MatchingInvertsFormatting(format: string, name: string, found: Option<string>)
    requires HostFormat(format) && '.' !in name
    ensures Supported(format)
    ensures IsOrgName(Split(format, '.'), Split(Sprintf(format, name), '.'), found) <==> found == Some(name)
  {
    var k: nat :| OnePlaceholder(format, k);
    FormatLabels(format, k, name);
    var w, h := Split(format, '.'), Split(Sprintf(format, name), '.');
    PlaceholderShowsPercent(w);
    assert IsOrgName(w, h, Some(name));
    if IsOrgName(w, h, found) { OrgNameUnique(w, h, found, Some(name)); }
  }

  /** Formatting undoes matching: a recovered name formats back to the host that was asked. */
  lemma FormattingInvertsMatching(format: string, host: string, name: string)
    requires HostFormat(format)
    requires IsOrgName(Split(format, '.'), Split(host, '.'), Some(name))
    ensures Supported(format) && '.' !in name
    ensures Sprintf(format, name) == host
  {
    var k: nat :| OnePlaceholder(format, k);
    var w, h := Split(format, '.'), Split(host, '.');
    JoinSplit(host, '.');
    PlaceholderShowsPercent(w);
    assert name == h[k];
    assert w[k := name] == h;
    FormatLabels(format, k, name);
    JoinSplit(Sprintf(format, name), '.');
  }

  // ----- formats with one verb anywhere -----

  /** One verb with literal text around it. */
  predicate OneVerb(prefix: string, verb: string, suffix: string) {
    IsPlaceholder(verb) && '%' !in prefix && '%' !in suffix
  }

  /** Matching a formatted host returns exactly the name, for every name without a dot. */
  ghost predicate InvertsFormatting(format: string)
    requires Supported(format)
  {
    forall name, found :: '.' !in name ==>
      (IsOrgName(Split(format, '.'), Split(Sprintf(format, name), '.'), found) <==> found == Some(name))
  }

  /** The labels of such a format: literal ones, and the one that holds the verb. */
  lemma VerbLabels(prefix: string, verb: string, suffix: string) returns (k: nat)
    requires OneVerb(prefix, verb, suffix)
    ensures var labels := Split(prefix + (verb + suffix), '.');
      var x, y := Split(prefix, '.'), Split(suffix, '.');
      && k == |x| - 1 && k < |labels| && labels[k] == x[k] + (verb + y[0])
      && forall i :: 0 <= i < |labels| && i != k ==> '%' !in labels[i]
  {
    var x, y := Split(prefix, '.'), Split(suffix, '.');
    SplitFree(verb, '.');
    SplitConcat(verb, suffix, '.');
    SplitConcat(prefix, verb + suffix, '.');
    SplitKeepsOut(prefix, '.', '%');
    SplitKeepsOut(suffix, '.', '%');
    k := |x| - 1;
    var labels := Split(prefix + (verb + suffix), '.');
    forall i | 0 <= i < |labels| && i != k ensures '%' !in labels[i] {
      if i > k { assert labels[i] == y[i - k]; }
    }
  }

  /** For a format with one verb, matching inverts formatting exactly when the verb is a whole label;
      otherwise the matcher recovers no name from any host. */
  lemma InvertsIffWholeLabel(prefix: string, verb: string, suffix: string)
    requires OneVerb(prefix, verb, suffix)
    ensures Supported(prefix + (verb + suffix))
    ensures var format := prefix + (verb + suffix); var labels := Split(format, '.');
      InvertsFormatting(format) <==> exists k :: 0 <= k < |labels| && IsPlaceholder(labels[k])
    ensures var labels := Split(prefix + (verb + suffix), '.');
      (forall k :: 0 <= k < |labels| ==> !IsPlaceholder(labels[k])) ==>
        forall host, name :: !IsOrgName(labels, Split(host, '.'), Some(name))
  {
    var format := prefix + (verb + suffix);
    var labels := Split(format, '.');
    var k := VerbLabels(prefix, verb, suffix);
    PlaceholderShowsPercent(labels);
    SprintfFront(verb, suffix, "");
    ExpandPlain(prefix, verb + suffix, None);
    if IsPlaceholder(labels[k]) {
      assert OnePlaceholder(format, k);
      forall name, found | '.' !in name
        ensures IsOrgName(labels, Split(Sprintf(format, name), '.'), found) <==> found == Some(name)
      {
        MatchingInvertsFormatting(format, name, found);
      }
    } else {
      assert forall i :: 0 <= i < |labels| ==> !IsPlaceholder(labels[i]);
      assert !IsOrgName(labels, Split(Sprintf(format, "x"), '.'), Some("x"));
      assert '.' !in "x";
    }
  }

  // ----- formats with several placeholders -----

  /** Every label is a placeholder or literal text. */
  ghost predicate LabelFormat(labels: seq<string>) {
    |labels| >= 1 && Free(labels, '.')
    && forall i :: 0 <= i < |labels| ==> IsPlaceholder(labels[i]) || '%' !in labels[i]
  }

  lemma {:induction false} LabelFormatSupported(labels: seq<string>)
    requires LabelFormat(labels)
    ensures Supported(Join(labels, '.'))
  {
    var rest := if |labels| == 1 then "" else "." + Join(labels[1..], '.');
    assert Join(labels, '.') == labels[0] + rest;
    if |labels| > 1 {
      assert LabelFormat(labels[1..]);
      LabelFormatSupported(labels[1..]);
      ExpandPlain(".", Join(labels[1..], '.'), None);
    }
    if IsPlaceholder(labels[0]) {
      ExpandPlaceholder(labels[0], rest, "");
    } else {
      ExpandPlain(labels[0], rest, None);
    }
  }

  /** A verb left without an argument prints a percent sign. */
  lemma {:induction false} MissingShows(labels: seq<string>, k: nat)
    requires LabelFormat(labels) && k < |labels| && IsPlaceholder(labels[k])
    ensures Supported(Join(labels, '.'))
    ensures '%' in Expand(Join(labels, '.'), None)
  {
    LabelFormatSupported(labels);
    var rest := if |labels| == 1 then "" else "." + Join(labels[1..], '.');
    assert Join(labels, '.') == labels[0] + rest;
    if IsPlaceholder(labels[0]) {
      assert Expand(labels[0] + rest, None)[0] == '%';
    } else {
      assert LabelFormat(labels[1..]);
      MissingShows(labels[1..], k - 1);
      ExpandPlain(".", Join(labels[1..], '.'), None);
      ExpandPlain(labels[0], rest, None);
    }
  }

  /** With two placeholders the formatted host always shows the missing second argument. */
  lemma {:induction false} SecondVerbMissing(labels: seq<string>, j: nat, k: nat, arg: string)
    requires LabelFormat(labels) && j < k < |labels| && IsPlaceholder(labels[j]) && IsPlaceholder(labels[k])
    ensures Supported(Join(labels, '.'))
    ensures '%' in Sprintf(Join(labels, '.'), arg)
  {
    LabelFormatSupported(labels);
    var tail := Join(labels[1..], '.');
    var rest := "." + tail;
    assert Join(labels, '.') == labels[0] + rest;
    assert LabelFormat(labels[1..]);
    LabelFormatSupported(labels[1..]);
    ExpandPlain(".", tail, None);
    ExpandPlain(".", tail, Some(arg));
    if IsPlaceholder(labels[0]) {
      MissingShows(labels[1..], k - 1);
      ExpandPlaceholder(labels[0], rest, arg);
    } else {
      SecondVerbMissing(labels[1..], j - 1, k - 1, arg);
      ExpandPlain(labels[0], rest, Some(arg));
    }
  }

  ghost predicate RecoveredNamesFormatBack(format: string)
    requires Supported(format)
  {
    forall host, name :: IsOrgName(Split(format, '.'), Split(host, '.'), Some(name)) ==> Sprintf(format, name) == host
  }

  ghost predicate TwoPlaceholders(w: seq<string>) {
    exists i, j :: 0 <= i < j < |w| && IsPlaceholder(w[i]) && IsPlaceholder(w[j])
  }

  lemma RecoversX(w: seq<string>, h: seq<string>, i: nat)
    requires |h| == |w| && forall n :: 0 <= n < |w| ==> h[n] == if IsPlaceholder(w[n]) then "x" else w[n]
    requires i < |w| && IsPlaceholder(w[i])
    ensures IsOrgName(w, h, Some("x"))
  {
    var k := FirstPlaceholder(w, i);
    assert h[k] == "x";
  }

  lemma NoPercent(w: seq<string>, h: seq<string>)
    requires LabelFormat(w) && |h| == |w|
    requires forall n :: 0 <= n < |w| ==> h[n] == if IsPlaceholder(w[n]) then "x" else w[n]
    ensures forall n :: 0 <= n < |h| ==> '%' !in h[n]
  {}

  /** With two placeholders, the host that has "x" for each of them is recovered as "x", which formats
      to a host with a missing argument. */
  lemma TwoPlaceholdersFail(format: string)
    requires LabelFormat(Split(format, '.')) && TwoPlaceholders(Split(format, '.'))
    ensures Supported(format)
    ensures !RecoveredNamesFormatBack(format)
  {
    var w := Split(format, '.');
    JoinSplit(format, '.');
    LabelFormatSupported(w);
    TwoPlaceholdersMiss(format, w);
  }

  lemma TwoPlaceholdersMiss(format: string, w: seq<string>)
    requires w == Split(format, '.') && Join(w, '.') == format && Supported(format)
    requires LabelFormat(w) && TwoPlaceholders(w)
    ensures !RecoveredNamesFormatBack(format)
  {
    var i, j :| 0 <= i < j < |w| && IsPlaceholder(w[i]) && IsPlaceholder(w[j]);
    var h := seq(|w|, n requires 0 <= n < |w| => if IsPlaceholder(w[n]) then "x" else w[n]);
    var host := Join(h, '.');
    SplitJoin(h, '.');
    RecoversX(w, h, i);
    SecondVerbMissing(w, i, j, "x");
    NoPercent(w, h);
    JoinKeepsOut(h, '.', '%');
    assert Sprintf(format, "x") != host;
  }

  lemma OnePlaceholderSucceeds(format: string)
    requires LabelFormat(Split(format, '.')) && !TwoPlaceholders(Split(format, '.'))
    ensures Supported(format)
    ensures RecoveredNamesFormatBack(format)
  {
    var w := Split(format, '.');
    JoinSplit(format, '.');
    LabelFormatSupported(w);
    forall host, name | IsOrgName(w, Split(host, '.'), Some(name)) ensures Sprintf(format, name) == host {
      var k :| 0 <= k < |w| && IsPlaceholder(w[k]);
      assert OnePlaceholder(format, k);
      FormattingInvertsMatching(format, host, name);
    }
  }

  /** For a format made of literal and placeholder labels, recovered names always format back to
      the host exactly when there are not two placeholders. */
  lemma FormatsBackIffOnePlaceholder(format: string)
    requires LabelFormat(Split(format, '.'))
    ensures Supported(format)
    ensures RecoveredNamesFormatBack(format) <==> !TwoPlaceholders(Split(format, '.'))
  {
    if TwoPlaceholders(Split(format, '.')) {
      TwoPlaceholdersFail(format);
    } else {
      OnePlaceholderSucceeds(format);
    }
  }

  lemma FirstPlaceholder(w: seq<string>, i: nat) returns (k: nat)
    requires i < |w| && IsPlaceholder(w[i])
    ensures k < |w| && IsPlaceholder(w[k]) && forall j :: 0 <= j < k ==> !IsPlaceholder(w[j])
  {
    if j :| 0 <= j < i && IsPlaceholder(w[j]) {
      k := FirstPlaceholder(w, j);
    } else {
      k := i;
    }
  }
}
