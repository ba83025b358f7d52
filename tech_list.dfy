/** The technology list format written into the 'Technologies' column:
    comma-separated tokens, each `name` or `name:version`, with whitespace
    allowed around every part. The lead scorer (add_call_lead_column.py)
    and the inventory script (inspect_file.py) read tokens the same way:
    the name is the text before the first ':', stripped; a token whose name
    is empty is ignored; the version is the stripped text between the first
    and the second ':'. */
module TechList {
  import opened Text

  /** `tech_item.strip().split(':')`. */
  function TokenFields(token: string): (fields: seq<string>)
    ensures |fields| >= 1
  {
    Split(Strip(token), ':')
  }

  /** `parts[0].strip()`: the technology name of a token, possibly empty.
      It never holds a ':' and never starts or ends with whitespace. */
  function TokenName(token: string): (name: string)
    ensures ':' !in name
    ensures name == [] || (!IsSpace(name[0]) && !IsSpace(name[|name| - 1]))
  {
    var first := TokenFields(token)[0];
    StripKeeps(first);
    Strip(first)
  }

  /** `len(parts) > 1`. */
  predicate HasVersion(token: string) {
    |TokenFields(token)| > 1
  }

  /** `parts[1].strip()`. */
  function TokenVersion(token: string): (version: string)
    requires HasVersion(token)
    ensures ':' !in version
  {
    var second := TokenFields(token)[1];
    StripKeeps(second);
    Strip(second)
  }

  /** The distinct non-empty names of a list of tokens. */
  function NameSet(tokens: seq<string>): set<string> {
    set t | t in tokens && TokenName(t) != [] :: TokenName(t)
  }

  /** The set of technology names a 'Technologies' cell lists. */
  function TechNames(s: string): set<string> {
    NameSet(Split(s, ','))
  }

  /** A name as the technology detector reports it, which the list format
      can carry unchanged. */
  predicate PlainName(n: string) {
    n != [] && ',' !in n && ':' !in n && !IsSpace(n[0]) && !IsSpace(n[|n| - 1])
  }

  /** A token has a version exactly when it holds a ':'. */
  lemma HasVersionIffColon(token: string)
    ensures HasVersion(token) <==> ':' in token
  {
    StripKeeps(token);
  }

  lemma {:induction false} SplitWithoutSeparator(s: string, sep: char)
    requires sep !in s
    ensures Split(s, sep) == [s]
  {
    JoinSplit(s, sep);
  }

  /** A single token contributes exactly its name, unless the name is empty. */
  lemma TechNamesOfToken(t: string)
    requires ',' !in t
    ensures TechNames(t) == if TokenName(t) == [] then {} else {TokenName(t)}
  {
    SplitWithoutSeparator(t, ',');
  }

  lemma NameSetConcat(a: seq<string>, b: seq<string>)
    ensures NameSet(a + b) == NameSet(a) + NameSet(b)
  {
    forall n | n in NameSet(a + b) ensures n in NameSet(a) + NameSet(b) {
      var t :| t in a + b && TokenName(t) != [] && TokenName(t) == n;
    }
  }

  /** The names of a list depend on which tokens it holds, not on their
      order or how often each occurs. */
  lemma NameSetSameTokens(a: seq<string>, b: seq<string>)
    requires forall t :: t in a <==> t in b
    ensures NameSet(a) == NameSet(b)
  {
  }

  lemma NameSetOfOne(t: string)
    ensures NameSet([t]) == if TokenName(t) == [] then {} else {TokenName(t)}
  {
  }

  /** One more token adds its name, if it has one. */
  lemma NameSetStep(tokens: seq<string>, i: int)
    requires 0 <= i < |tokens|
    ensures NameSet(tokens[..i + 1])
         == NameSet(tokens[..i]) + (if TokenName(tokens[i]) == [] then {} else {TokenName(tokens[i])})
  {
    assert tokens[..i + 1] == tokens[..i] + [tokens[i]];
    NameSetConcat(tokens[..i], [tokens[i]]);
    NameSetOfOne(tokens[i]);
  }

  /** Two lists joined with a ',' name the union of their names. */
  lemma TechNamesConcat(a: string, b: string)
    ensures TechNames(a + [','] + b) == TechNames(a) + TechNames(b)
  {
    SplitConcat(a, b, ',');
    NameSetConcat(Split(a, ','), Split(b, ','));
  }

  /** Token order and repeated tokens do not change the names. */
  lemma TechNamesReorder(a: string, b: string)
    ensures TechNames(a + [','] + b) == TechNames(b + [','] + a)
    ensures TechNames(a + [','] + a) == TechNames(a)
  {
    TechNamesConcat(a, b);
    TechNamesConcat(b, a);
    TechNamesConcat(a, a);
  }

  /** A token whose name is empty (blank, or only a ':version') adds no name. */
  lemma TechNamesIgnoresEmptyName(a: string, e: string)
    requires ',' !in e && TokenName(e) == []
    ensures TechNames(a + [','] + e) == TechNames(a)
  {
    TechNamesConcat(a, e);
    TechNamesOfToken(e);
  }

  /** Whitespace around a token changes nothing about it. */
  lemma TokenSurroundingSpace(w1: string, t: string, w2: string)
    requires AllSpace(w1) && AllSpace(w2)
    ensures TokenName(w1 + t + w2) == TokenName(t)
    ensures HasVersion(w1 + t + w2) == HasVersion(t)
    ensures HasVersion(t) ==> TokenVersion(w1 + t + w2) == TokenVersion(t)
  {
    StripSurroundingSpace(w1, t, w2);
  }

  /** The fields of a token with at least one ':' after a name without one. */
  lemma FieldsAfterName(n: string, w: string)
    requires ':' !in n
    ensures TokenFields(n + [':'] + w) == [StripLeft(n)] + Split(StripRight(w), ':')
  {
    StripAround(n, ':', w);
    NonSpaceKeptLeft(n);
    SplitConcat(StripLeft(n), StripRight(w), ':');
    SplitWithoutSeparator(StripLeft(n), ':');
  }

  /** Adding or changing a `:version` suffix leaves the name as it was. */
  lemma TokenNameIgnoresVersion(n: string, v: string)
    requires ':' !in n
    ensures TokenName(n + [':'] + v) == TokenName(n)
    ensures HasVersion(n + [':'] + v)
  {
    FieldsAfterName(n, v);
    StripKeeps(n);
    SplitWithoutSeparator(Strip(n), ':');
    StripIdempotent(n);
    StripCommute(n);
    assert Strip(StripLeft(n)) == StripLeft(StripRight(StripLeft(n)));
  }

  /** The version is the stripped text after the ':'. */
  lemma TokenVersionOfPair(n: string, v: string)
    requires ':' !in n && ':' !in v
    ensures HasVersion(n + [':'] + v) && TokenVersion(n + [':'] + v) == Strip(v)
  {
    FieldsAfterName(n, v);
    NonSpaceKeptRight(v);
    SplitWithoutSeparator(StripRight(v), ':');
    StripCommute(v);
    assert Strip(StripRight(v)) == StripLeft(StripRight(StripRight(v)));
  }

  /** Only the text between the first and the second ':' is the version:
      anything after a second ':' is dropped. */
  lemma TokenVersionIgnoresThirdField(n: string, v: string, rest: string)
    requires ':' !in n && ':' !in v
    ensures HasVersion(n + [':'] + v + [':'] + rest)
    ensures TokenVersion(n + [':'] + v + [':'] + rest) == Strip(v)
  {
    var tail := v + [':'] + rest;
    assert n + [':'] + v + [':'] + rest == n + [':'] + tail;
    FieldsAfterName(n, tail);
    StripRightKeep(v + [':'], rest);
    assert StripRight(tail) == v + [':'] + StripRight(rest);
    SplitConcat(v, StripRight(rest), ':');
    SplitWithoutSeparator(v, ':');
  }

  /** A plain name on its own is read back as itself. */
  lemma TechNamesOfPlainName(x: string)
    requires PlainName(x)
    ensures TechNames(x) == {x}
  {
    SplitWithoutSeparator(x, ':');
    StripTrimmed(x);
    assert TokenName(x) == x;
    TechNamesOfToken(x);
  }

  /** The ", " separator is a ',' followed by a space that pads the next token. */
  lemma CommaSpaceSplits(x: string, tail: string)
    ensures x + ", " + tail == x + [','] + ([' '] + tail)
  {
  }

  /** A plain name in front of a ", "-joined list adds itself to its names. */
  lemma TechNamesOfCons(x: string, tail: string)
    requires PlainName(x)
    ensures TechNames(x + ", " + tail) == {x} + TechNames(tail)
  {
    CommaSpaceSplits(x, tail);
    TechNamesConcat(x, [' '] + tail);
    TechNamesLeadingSpace([' '], tail);
    TechNamesOfPlainName(x);
  }

  /** A list of plain names joined with ", " (how the analyzer renders a
      detection) is read back as exactly those names. */
  lemma {:induction false} TechNamesOfJoined(names: seq<string>)
    requires |names| >= 1
    requires forall i :: 0 <= i < |names| ==> PlainName(names[i])
    ensures TechNames(Join(names, ", ")) == set n | n in names
    decreases |names|
  {
    if |names| == 1 {
      TechNamesOfPlainName(names[0]);
    } else {
      var x, rest := names[0], names[1..];
      assert TechNames(Join(names, ", ")) == {x} + TechNames(Join(rest, ", ")) by {
        assert Join(names, ", ") == x + ", " + Join(rest, ", ");
        TechNamesOfCons(x, Join(rest, ", "));
      }
      TechNamesOfJoined(rest);
      assert (set n | n in names) == {x} + (set n | n in rest) by {
        assert names == [x] + rest;
      }
    }
  }

  /** Replacing the first token by one with the same name keeps the names. */
  lemma NameSetSameHead(x: string, y: string, rest: seq<string>)
    requires TokenName(x) == TokenName(y)
    ensures NameSet([x] + rest) == NameSet([y] + rest)
  {
    NameSetConcat([x], rest);
    NameSetConcat([y], rest);
  }

  /** Whitespace in front of a list only pads its first token. */
  lemma TechNamesLeadingSpace(w: string, s: string)
    requires AllSpace(w)
    ensures TechNames(w + s) == TechNames(s)
  {
    var parts := Split(s, ',');
    assert ',' !in w by {
      assert !IsSpace(',');
      NonSpaceBesideSpace(w, []);
    }
    SplitPrefix(w, s, ',');
    assert TokenName(w + parts[0]) == TokenName(parts[0]) by {
      TokenSurroundingSpace(w, parts[0], []);
      assert w + parts[0] + [] == w + parts[0];
    }
    NameSetSameHead(w + parts[0], parts[0], parts[1..]);
    assert parts == [parts[0]] + parts[1..];
  }
}
