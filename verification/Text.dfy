/** The string operations the hosts, paths and orderings rest on: strings.Split, joining labels
    back, strings.Compare, and fmt.Sprintf with one string argument. */
module Text {
  import opened Prelude

  // ----- strings.Split and its inverse -----

  function Split(s: string, sep: char): (parts: seq<string>)
    ensures |parts| >= 1
  {
    if s == [] then
      [[]]
    else
      var rest := Split(s[1..], sep);
      if s[0] == sep then [[]] + rest else [[s[0]] + rest[0]] + rest[1..]
  }

  function Join(parts: seq<string>, sep: char): string
    requires |parts| >= 1
  {
    if |parts| == 1 then parts[0] else parts[0] + [sep] + Join(parts[1..], sep)
  }

  ghost predicate Free(parts: seq<string>, sep: char) {
    forall i :: 0 <= i < |parts| ==> sep !in parts[i]
  }

  /** Splitting loses nothing: the labels contain no separator and join back to the string. */
  lemma {:induction false} JoinSplit(s: string, sep: char)
    ensures Free(Split(s, sep), sep)
    ensures Join(Split(s, sep), sep) == s
  {
    if s != [] {
      var rest := Split(s[1..], sep);
      JoinSplit(s[1..], sep);
      if s[0] == sep {
        assert ([[]] + rest)[1..] == rest;
      } else {
        var parts := [[s[0]] + rest[0]] + rest[1..];
        assert parts[1..] == rest[1..];
        forall i | 0 <= i < |parts| ensures sep !in parts[i] {
          if i > 0 { assert parts[i] == rest[i]; }
        }
        assert s == [s[0]] + s[1..];
      }
    }
  }

  /** Joining labels that contain no separator is undone by splitting. */
  lemma {:induction false} SplitJoin(parts: seq<string>, sep: char)
    requires |parts| >= 1 && Free(parts, sep)
    ensures Split(Join(parts, sep), sep) == parts
  {
    if |parts| == 1 {
      SplitFree(parts[0], sep);
    } else {
      assert Free(parts[1..], sep);
      SplitJoin(parts[1..], sep);
      SplitAt(parts[0], Join(parts[1..], sep), sep);
      assert parts[0] + [sep] + Join(parts[1..], sep) == parts[0] + ([sep] + Join(parts[1..], sep));
      assert parts == [parts[0]] + parts[1..];
    }
  }

  lemma {:induction false} SplitFree(s: string, sep: char)
    requires sep !in s
    ensures Split(s, sep) == [s]
  {
    if s != [] {
      SplitFree(s[1..], sep);
      assert s == [s[0]] + s[1..];
    }
  }

  lemma {:induction false} SplitAt(first: string, rest: string, sep: char)
    requires sep !in first
    ensures Split(first + ([sep] + rest), sep) == [first] + Split(rest, sep)
  {
    var s := first + ([sep] + rest);
    if first == [] {
      assert s[1..] == rest;
    } else {
      assert s[1..] == first[1..] + ([sep] + rest);
      SplitAt(first[1..], rest, sep);
      var tail := [first[1..]] + Split(rest, sep);
      assert tail[0] == first[1..] && tail[1..] == Split(rest, sep);
      assert [first[0]] + first[1..] == first;
    }
  }

  /** Two lists of labels whose meeting labels become one. */
  function Glue(x: seq<string>, y: seq<string>): (z: seq<string>)
    requires |x| >= 1 && |y| >= 1
    ensures |z| == |x| + |y| - 1
    ensures forall i :: 0 <= i < |z| ==>
      z[i] == if i < |x| - 1 then x[i] else if i == |x| - 1 then x[i] + y[0] else y[i - |x| + 1]
  {
    x[..|x| - 1] + [x[|x| - 1] + y[0]] + y[1..]
  }

  function Prepend(c: char, x: seq<string>): (z: seq<string>)
    requires |x| >= 1
    ensures |z| == |x| && z[0] == [c] + x[0] && forall i :: 0 < i < |x| ==> z[i] == x[i]
  {
    [[c] + x[0]] + x[1..]
  }

  lemma GluePrepend(c: char, x: seq<string>, y: seq<string>)
    requires |x| >= 1 && |y| >= 1
    ensures Glue(Prepend(c, x), y) == Prepend(c, Glue(x, y))
  {
    if |x| == 1 { assert ([c] + x[0]) + y[0] == [c] + (x[0] + y[0]); }
  }

  lemma GlueEmpty(x: seq<string>, y: seq<string>)
    requires |x| >= 1 && |y| >= 1
    ensures Glue([[]] + x, y) == [[]] + Glue(x, y)
  {}

  /** Splitting a concatenation joins the two labels that meet. */
  lemma {:induction false} SplitConcat(a: string, b: string, sep: char)
    ensures Split(a + b, sep) == Glue(Split(a, sep), Split(b, sep))
  {
    if a == [] {
      assert a + b == b;
      assert [] + Split(b, sep)[0] == Split(b, sep)[0];
    } else {
      var x, y := Split(a[1..], sep), Split(b, sep);
      assert (a + b)[1..] == a[1..] + b;
      SplitConcat(a[1..], b, sep);
      if a[0] == sep {
        GlueEmpty(x, y);
        assert Split(a, sep) == [[]] + x;
      } else {
        GluePrepend(a[0], x, y);
        assert Split(a, sep) == Prepend(a[0], x);
        assert Split(a + b, sep) == Prepend(a[0], Glue(x, y));
      }
    }
  }

  /** A character missing from a text is missing from every label. */
  lemma {:induction false} SplitKeepsOut(s: string, sep: char, c: char)
    requires c !in s
    ensures forall i :: 0 <= i < |Split(s, sep)| ==> c !in Split(s, sep)[i]
  {
    if s != [] { SplitKeepsOut(s[1..], sep, c); }
  }

  // ----- strings.Compare: byte-wise lexicographic order -----

  predicate Less(a: string, b: string) {
    b != [] && (a == [] || a[0] < b[0] || (a[0] == b[0] && Less(a[1..], b[1..])))
  }

  lemma {:induction false} LessIrreflexive(a: string)
    ensures !Less(a, a)
  {
    if a != [] { LessIrreflexive(a[1..]); }
  }

  lemma {:induction false} LessTotal(a: string, b: string)
    ensures a == b || Less(a, b) || Less(b, a)
  {
    if a != [] && b != [] && a[0] == b[0] {
      LessTotal(a[1..], b[1..]);
      assert a == [a[0]] + a[1..] && b == [b[0]] + b[1..];
    }
  }

  lemma {:induction false} LessTransitive(a: string, b: string, c: string)
    requires Less(a, b) && Less(b, c)
    ensures Less(a, c)
  {
    if a != [] && a[0] == b[0] && b[0] == c[0] { LessTransitive(a[1..], b[1..], c[1..]); }
  }

  // ----- fmt.Sprintf(format, arg) for a string argument -----

  predicate IsVerb(c: char) { c == 'v' || c == 's' }

  /** The formats the model covers: every '%' begins %v, %s or %%. */
  predicate Supported(format: string) {
    format == [] ||
    if format[0] != '%' then Supported(format[1..])
    else |format| >= 2 && (IsVerb(format[1]) || format[1] == '%') && Supported(format[2..])
  }

  /** The first verb takes the argument; a later verb prints as missing, an argument without a
      verb as extra. */
  function Sprintf(format: string, arg: string): string
    requires Supported(format)
  {
    Expand(format, Some(arg))
  }

  function Expand(format: string, arg: Option<string>): string
    requires Supported(format)
  {
    if format == [] then
      if arg.Some? then "%!(EXTRA string=" + arg.value + ")" else ""
    else if format[0] != '%' then
      [format[0]] + Expand(format[1..], arg)
    else if format[1] == '%' then
      "%" + Expand(format[2..], arg)
    else if arg.Some? then
      arg.value + Expand(format[2..], None)
    else
      "%!" + [format[1]] + "(MISSING)" + Expand(format[2..], None)
  }

  /** Formatting is injective in its argument, whatever the format. */
  lemma {:induction false} SprintfInjective(format: string, a: string, b: string)
    requires Supported(format)
    requires Sprintf(format, a) == Sprintf(format, b)
    ensures a == b
  {
    var p, q := Around(format, a);
    var p', q' := Around(format, b);
    assert |a| == |b|;
    assert a == (p + a + q)[|p|..|p| + |a|];
    assert b == (p + b + q)[|p|..|p| + |b|];
  }

  /** The argument appears verbatim between a prefix and a suffix that do not depend on it. */
  lemma {:induction false} Around(format: string, arg: string) returns (prefix: string, suffix: string)
    requires Supported(format)
    ensures Sprintf(format, arg) == prefix + arg + suffix
    ensures (prefix, suffix) == Frame(format)
  {
    prefix, suffix := Frame(format).0, Frame(format).1;
    if format != [] && format[0] != '%' {
      var p, q := Around(format[1..], arg);
      assert [format[0]] + (p + arg + q) == ([format[0]] + p) + arg + q;
    } else if format != [] && format[1] == '%' {
      var p, q := Around(format[2..], arg);
      assert "%" + (p + arg + q) == ("%" + p) + arg + q;
    }
  }

  ghost function Frame(format: string): (string, string)
    requires Supported(format)
  {
    if format == [] then ("%!(EXTRA string=", ")")
    else if format[0] != '%' then
      var f := Frame(format[1..]); ([format[0]] + f.0, f.1)
    else if format[1] == '%' then
      var f := Frame(format[2..]); ("%" + f.0, f.1)
    else ("", Expand(format[2..], None))
  }

  // ----- formats whose placeholder is a whole label -----

  predicate IsPlaceholder(part: string) { part == "%v" || part == "%s" }

  lemma ExpandCharacter(c: char, rest: string, arg: Option<string>)
    requires c != '%' && Supported(rest)
    ensures Supported([c] + rest)
    ensures Expand([c] + rest, arg) == [c] + Expand(rest, arg)
  {
    assert ([c] + rest)[1..] == rest;
  }

  /** Text without a percent sign is copied. */
  lemma {:induction false} ExpandPlain(text: string, rest: string, arg: Option<string>)
    requires '%' !in text && Supported(rest)
    ensures Supported(text + rest)
    ensures Expand(text + rest, arg) == text + Expand(rest, arg)
  {
    if text == [] {
      assert text + rest == rest;
    } else {
      assert text + rest == [text[0]] + (text[1..] + rest);
      ExpandPlain(text[1..], rest, arg);
      ExpandCharacter(text[0], text[1..] + rest, arg);
      assert [text[0]] + (text[1..] + Expand(rest, arg)) == text + Expand(rest, arg);
    }
  }

  lemma ExpandPlaceholder(part: string, rest: string, arg: string)
    requires IsPlaceholder(part) && Supported(rest)
    ensures Supported(part + rest)
    ensures Expand(part + rest, Some(arg)) == arg + Expand(rest, None)
  {
    assert (part + rest)[2..] == rest;
  }

  /** A literal label is copied together with its separator. */
  lemma ExpandLabel(labels: seq<string>, sep: char, arg: Option<string>)
    requires |labels| >= 2 && sep != '%' && '%' !in labels[0] && Supported(Join(labels[1..], sep))
    ensures Supported(Join(labels, sep))
    ensures Expand(Join(labels, sep), arg) == labels[0] + [sep] + Expand(Join(labels[1..], sep), arg)
  {
    ExpandPlain(labels[0] + [sep], Join(labels[1..], sep), arg);
  }

  /** A placeholder in front is replaced, and text without a percent sign behind it is copied. */
  lemma SprintfFront(part: string, rest: string, arg: string)
    requires IsPlaceholder(part) && '%' !in rest
    ensures Supported(part + rest)
    ensures Sprintf(part + rest, arg) == arg + rest
  {
    ExpandPlain(rest, "", None);
    assert rest + "" == rest;
    ExpandPlaceholder(part, rest, arg);
  }

  lemma {:induction false} JoinKeepsOut(labels: seq<string>, sep: char, c: char)
    requires |labels| >= 1 && sep != c
    requires forall i :: 0 <= i < |labels| ==> c !in labels[i]
    ensures c !in Join(labels, sep)
  {
    if |labels| > 1 { JoinKeepsOut(labels[1..], sep, c); }
  }

  lemma SprintfFirstLabel(labels: seq<string>, sep: char, arg: string)
    requires |labels| >= 1 && sep != '%' && IsPlaceholder(labels[0])
    requires forall i :: 0 < i < |labels| ==> '%' !in labels[i]
    ensures Supported(Join(labels, sep))
    ensures Sprintf(Join(labels, sep), arg) == Join([arg] + labels[1..], sep)
  {
    var tail := labels[1..];
    assert ([arg] + tail)[1..] == tail;
    if tail == [] {
      SprintfFront(labels[0], "", arg);
      assert labels[0] + "" == labels[0] && arg + "" == arg;
    } else {
      JoinKeepsOut(tail, sep, '%');
      SprintfFront(labels[0], [sep] + Join(tail, sep), arg);
      assert Join(labels, sep) == labels[0] + ([sep] + Join(tail, sep));
      assert Join([arg] + tail, sep) == arg + ([sep] + Join(tail, sep));
    }
  }

  /** Formatting replaces exactly the placeholder label. */
  lemma {:induction false} SprintfLabels(labels: seq<string>, k: nat, sep: char, arg: string)
    requires k < |labels| && sep != '%' && IsPlaceholder(labels[k])
    requires forall i :: 0 <= i < |labels| && i != k ==> '%' !in labels[i]
    ensures Supported(Join(labels, sep))
    ensures Sprintf(Join(labels, sep), arg) == Join(labels[k := arg], sep)
  {
    if k == 0 {
      SprintfFirstLabel(labels, sep, arg);
      assert labels[0 := arg] == [arg] + labels[1..];
    } else {
      SprintfLabels(labels[1..], k - 1, sep, arg);
      ExpandLabel(labels, sep, Some(arg));
      assert labels[k := arg][1..] == labels[1..][k - 1 := arg];
    }
  }
}
