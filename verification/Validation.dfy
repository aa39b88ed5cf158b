/** The two regular expressions of the API's input validation. */
module Validation {
  import opened Text

  predicate Alnum(c: char) { 'a' <= c <= 'z' || '0' <= c <= '9' }

  /** [a-z0-9]+ */
  predicate Word(s: string) { s != [] && forall i :: 0 <= i < |s| ==> Alnum(s[i]) }

  predicate Words(parts: seq<string>) { forall i :: 0 <= i < |parts| ==> Word(parts[i]) }

  /** ^[a-z0-9]+(-[a-z0-9]+)*$ : words separated by single hyphens. */
  predicate ValidName(name: string) { Words(Split(name, '-')) }

  /** ^([a-z0-9]+\.)+[a-z0-9]+$ : at least two words separated by single dots. */
  predicate ValidDomain(domain: string) {
    var parts := Split(domain, '.');
    |parts| >= 2 && Words(parts)
  }

  lemma WordsAreFree(parts: seq<string>, sep: char)
    requires Words(parts) && !Alnum(sep)
    ensures Free(parts, sep)
  {
    forall i | 0 <= i < |parts| ensures sep !in parts[i] {
      assert Word(parts[i]);
    }
  }

  /** The recognisers accept exactly the two regular languages. */
  lemma NameLanguage(name: string)
    ensures ValidName(name) <==> exists parts :: |parts| >= 1 && Words(parts) && name == Join(parts, '-')
  {
    JoinSplit(name, '-');
    forall parts | |parts| >= 1 && Words(parts) && name == Join(parts, '-') ensures ValidName(name) {
      WordsAreFree(parts, '-');
      SplitJoin(parts, '-');
    }
  }

  lemma DomainLanguage(domain: string)
    ensures ValidDomain(domain) <==> exists parts :: |parts| >= 2 && Words(parts) && domain == Join(parts, '.')
  {
    JoinSplit(domain, '.');
    forall parts | |parts| >= 2 && Words(parts) && domain == Join(parts, '.') ensures ValidDomain(domain) {
      WordsAreFree(parts, '.');
      SplitJoin(parts, '.');
    }
  }

  /** A valid name is non-empty and holds only letters, digits and hyphens, so it is one label of
      a host, one segment of a path, and never a format directive. */
  lemma NameCharacters(name: string)
    requires ValidName(name)
    ensures name != []
    ensures forall i :: 0 <= i < |name| ==> Alnum(name[i]) || name[i] == '-'
    ensures '.' !in name && '/' !in name && '%' !in name
  {
    JoinSplit(name, '-');
    JoinCharacters(Split(name, '-'), '-');
  }

  lemma {:induction false} JoinCharacters(parts: seq<string>, sep: char)
    requires |parts| >= 1 && Words(parts)
    ensures Join(parts, sep) != []
    ensures forall i :: 0 <= i < |Join(parts, sep)| ==> Alnum(Join(parts, sep)[i]) || Join(parts, sep)[i] == sep
  {
    assert Word(parts[0]);
    if |parts| > 1 {
      forall i | 0 <= i < |parts[1..]| ensures Word(parts[1..][i]) {
        assert parts[1..][i] == parts[i + 1];
      }
      JoinCharacters(parts[1..], sep);
    }
  }
}
