/** The technology inventory of inspect_file.py: one pass over the
    'Technologies' column collects every technology name and, for each name
    seen with a version, the set of all its versions; then a summary lists
    the names in ascending order with at most three of their versions. */
module TechInventory {
  import opened Sheet
  import opened Text
  import opened TechList

  /** The tokens of one cell; a cell that is not a string has none. */
  function CellTokens(c: Cell): seq<string> {
    if c.Text? then Split(c.value, ',') else []
  }

  /** The tokens of a column, cell after cell, in reading order. */
  function Tokens(cells: seq<Cell>): seq<string>
    decreases |cells|
  {
    if cells == [] then [] else CellTokens(cells[0]) + Tokens(cells[1..])
  }

  /** The names that some token gives a version. */
  function VersionedNames(tokens: seq<string>): set<string> {
    set t | t in tokens && TokenName(t) != [] && HasVersion(t) :: TokenName(t)
  }

  /** Every version some token gives the name `name`. */
  function Versions(tokens: seq<string>, name: string): set<string> {
    set t | t in tokens && HasVersion(t) && TokenName(t) == name :: TokenVersion(t)
  }

  /** A token lies in a column exactly when it lies in one of its cells. */
  lemma {:induction false} TokensOfCells(cells: seq<Cell>, t: string)
    ensures t in Tokens(cells) <==> exists k :: 0 <= k < |cells| && t in CellTokens(cells[k])
    decreases |cells|
  {
    if cells != [] {
      var tail := cells[1..];
      TokensOfCells(tail, t);
      if t in Tokens(tail) {
        var k :| 0 <= k < |tail| && t in CellTokens(tail[k]);
        assert cells[k + 1] == tail[k];
      }
      if exists k :: 0 <= k < |cells| && t in CellTokens(cells[k]) {
        var k :| 0 <= k < |cells| && t in CellTokens(cells[k]);
        if k > 0 {
          assert tail[k - 1] == cells[k];
        }
      }
    }
  }

  /** The tokens of two stretches of cells, one after the other. */
  lemma {:induction false} TokensConcat(a: seq<Cell>, b: seq<Cell>)
    ensures Tokens(a + b) == Tokens(a) + Tokens(b)
    decreases |a|
  {
    if a == [] {
      assert a + b == b;
    } else {
      assert (a + b)[1..] == a[1..] + b;
      TokensConcat(a[1..], b);
    }
  }

  /** One more cell adds its own tokens at the end. */
  lemma TokensSnoc(cells: seq<Cell>, c: Cell)
    ensures Tokens(cells + [c]) == Tokens(cells) + CellTokens(c)
  {
    TokensConcat(cells, [c]);
    assert [c][1..] == [];
  }

  /** A cell that is not a string (a missing value, a number) contributes
      no tokens wherever it stands. */
  lemma NonTextCellIgnored(before: seq<Cell>, after: seq<Cell>)
    ensures Tokens(before + [NonText] + after) == Tokens(before + after)
  {
    TokensSnoc(before, NonText);
    TokensConcat(before + [NonText], after);
    TokensConcat(before, after);
  }

  lemma VersionedNamesConcat(a: seq<string>, b: seq<string>)
    ensures VersionedNames(a + b) == VersionedNames(a) + VersionedNames(b)
  {
    forall n | n in VersionedNames(a + b) ensures n in VersionedNames(a) + VersionedNames(b) {
      var t :| t in a + b && TokenName(t) != [] && HasVersion(t) && TokenName(t) == n;
    }
  }

  /** Versions accumulate: the versions of a name over two stretches of
      tokens are the union of the versions over each, so a later version
      never replaces an earlier one. */
  lemma VersionsConcat(a: seq<string>, b: seq<string>, name: string)
    ensures Versions(a + b, name) == Versions(a, name) + Versions(b, name)
  {
    forall v | v in Versions(a + b, name) ensures v in Versions(a, name) + Versions(b, name) {
      var t :| t in a + b && HasVersion(t) && TokenName(t) == name && TokenVersion(t) == v;
    }
  }

  /** Every name with a version is among the names. */
  lemma VersionedNamesAreNames(tokens: seq<string>)
    ensures VersionedNames(tokens) <= NameSet(tokens)
  {
  }

  /** A name has versions exactly when one of its tokens holds a ':'. */
  lemma VersionedIffColon(tokens: seq<string>, name: string)
    requires name != []
    ensures name in VersionedNames(tokens)
      <==> exists t :: t in tokens && TokenName(t) == name && ':' in t
  {
    if name in VersionedNames(tokens) {
      var t :| t in tokens && TokenName(t) != [] && HasVersion(t) && TokenName(t) == name;
      HasVersionIffColon(t);
    }
    if exists t :: t in tokens && TokenName(t) == name && ':' in t {
      var t :| t in tokens && TokenName(t) == name && ':' in t;
      HasVersionIffColon(t);
    }
  }

  /** A name is versioned exactly when it has at least one version. */
  lemma VersionedIffVersions(tokens: seq<string>, name: string)
    requires name != []
    ensures name in VersionedNames(tokens) <==> Versions(tokens, name) != {}
  {
    if name in VersionedNames(tokens) {
      var t :| t in tokens && TokenName(t) != [] && HasVersion(t) && TokenName(t) == name;
      assert TokenVersion(t) in Versions(tokens, name);
    }
  }

  /** The inventory depends only on which tokens occur, not on their order
      or repetition. */
  lemma InventorySameTokens(a: seq<string>, b: seq<string>)
    requires forall t :: t in a <==> t in b
    ensures NameSet(a) == NameSet(b)
    ensures VersionedNames(a) == VersionedNames(b)
    ensures forall n :: Versions(a, n) == Versions(b, n)
  {
    NameSetSameTokens(a, b);
  }

  /** The inventory does not depend on the order of the cells (nor on how
      often a cell occurs). */
  lemma InventoryIgnoresCellOrder(c1: seq<Cell>, c2: seq<Cell>)
    requires forall c :: c in c1 <==> c in c2
    ensures NameSet(Tokens(c1)) == NameSet(Tokens(c2))
    ensures VersionedNames(Tokens(c1)) == VersionedNames(Tokens(c2))
    ensures forall n :: Versions(Tokens(c1), n) == Versions(Tokens(c2), n)
  {
    forall t
      ensures t in Tokens(c1) <==> t in Tokens(c2)
    {
      TokensOfCells(c1, t);
      TokensOfCells(c2, t);
      if t in Tokens(c1) {
        var k :| 0 <= k < |c1| && t in CellTokens(c1[k]);
        assert c1[k] in c2;
        var k2 :| 0 <= k2 < |c2| && c2[k2] == c1[k];
      }
      if t in Tokens(c2) {
        var k :| 0 <= k < |c2| && t in CellTokens(c2[k]);
        assert c2[k] in c1;
        var k1 :| 0 <= k1 < |c1| && c1[k1] == c2[k];
      }
    }
    InventorySameTokens(Tokens(c1), Tokens(c2));
  }

  /** The versions one token gives its own name. */
  lemma VersionsOfOne(tok: string)
    requires HasVersion(tok)
    ensures Versions([tok], TokenName(tok)) == {TokenVersion(tok)}
  {
  }

  /** A bare name is read as itself. */
  lemma BareName(n: string)
    requires PlainName(n)
    ensures TokenName(n) == n
  {
    StripTrimmed(n);
    SplitWithoutSeparator(n, ':');
  }

  /** "jQuery" is a plain name. */
  lemma JQueryIsPlain()
    ensures PlainName("jQuery") && TokenName("jQuery") == "jQuery"
  {
    BareName("jQuery");
  }

  lemma ThreeFieldTokenName()
    ensures TokenName("jQuery:1.0:beta") == "jQuery"
  {
    assert "jQuery:1.0:beta" == "jQuery" + [':'] + "1.0:beta";
    TokenNameIgnoresVersion("jQuery", "1.0:beta");
    JQueryIsPlain();
  }

  lemma ThreeFieldTokenVersion()
    ensures HasVersion("jQuery:1.0:beta") && TokenVersion("jQuery:1.0:beta") == "1.0"
  {
    assert "jQuery:1.0:beta" == "jQuery" + [':'] + "1.0" + [':'] + "beta";
    TokenVersionIgnoresThirdField("jQuery", "1.0", "beta");
    StripTrimmed("1.0");
  }

  /** Only the text between the first and a second ':' is the version. */
  lemma ThirdFieldDropped()
    ensures Versions(["jQuery:1.0:beta"], "jQuery") == {"1.0"}
  {
    ThreeFieldTokenName();
    ThreeFieldTokenVersion();
    VersionsOfOne("jQuery:1.0:beta");
  }

  lemma EmptyVersionToken()
    ensures TokenName("jQuery:") == "jQuery"
    ensures HasVersion("jQuery:") && TokenVersion("jQuery:") == ""
  {
    assert "jQuery:" == "jQuery" + [':'] + "";
    TokenVersionOfPair("jQuery", "");
    TokenNameIgnoresVersion("jQuery", "");
    JQueryIsPlain();
  }

  /** A token ending in ':' records the empty version. */
  lemma EmptyVersionRecorded()
    ensures Versions(["jQuery:"], "jQuery") == {""}
  {
    EmptyVersionToken();
    VersionsOfOne("jQuery:");
  }

  /** `allTechnologies` and `techWithVersions` hold the inventory of
      `tokens`. */
  ghost predicate Inventory(tokens: seq<string>, all: set<string>, versions: map<string, set<string>>) {
    all == NameSet(tokens)
    && versions.Keys == VersionedNames(tokens)
    && forall n :: n in versions ==> versions[n] == Versions(tokens, n)
  }

  /** The names after one more token: its name, unless empty. */
  function AddName(tok: string, all: set<string>): set<string> {
    if TokenName(tok) == [] then all else all + {TokenName(tok)}
  }

  /** The versions after one more token: its version, if it has a name and
      a version, joins that name's set (created empty on first sight). */
  function AddVersion(tok: string, versions: map<string, set<string>>): map<string, set<string>> {
    var name := TokenName(tok);
    if name == [] || !HasVersion(tok) then versions
    else
      var known := if name in versions then versions[name] else {};
      versions[name := known + {TokenVersion(tok)}]
  }

  /** The names step: one more token adds its name, if it has one. */
  lemma AddNameStep(seen: seq<string>, tok: string, all: set<string>)
    requires all == NameSet(seen)
    ensures AddName(tok, all) == NameSet(seen + [tok])
  {
    NameSetConcat(seen, [tok]);
    assert NameSet([tok]) == if TokenName(tok) != [] then {TokenName(tok)} else {};
  }

  /** The keys step: one more token with a name and a version makes that
      name a key. */
  lemma AddVersionKeysStep(seen: seq<string>, tok: string, versions: map<string, set<string>>)
    requires versions.Keys == VersionedNames(seen)
    ensures AddVersion(tok, versions).Keys == VersionedNames(seen + [tok])
  {
    VersionedNamesConcat(seen, [tok]);
    VersionedNamesOfOne(tok);
    AddVersionKeys(tok, versions);
  }

  lemma VersionedNamesOfOne(tok: string)
    ensures VersionedNames([tok]) == if TokenName(tok) != [] && HasVersion(tok) then {TokenName(tok)} else {}
  {
  }

  /** Recording a version makes the token's name a key and touches no other key. */
  lemma AddVersionKeys(tok: string, versions: map<string, set<string>>)
    ensures AddVersion(tok, versions).Keys
         == versions.Keys + if TokenName(tok) != [] && HasVersion(tok) then {TokenName(tok)} else {}
  {
  }

  /** The values step for the token's own name. */
  lemma AddVersionOwnName(seen: seq<string>, tok: string, versions: map<string, set<string>>)
    requires versions.Keys == VersionedNames(seen)
    requires forall n :: n in versions ==> versions[n] == Versions(seen, n)
    requires TokenName(tok) != [] && HasVersion(tok)
    ensures AddVersion(tok, versions)[TokenName(tok)] == Versions(seen + [tok], TokenName(tok))
  {
    var name := TokenName(tok);
    VersionsConcat(seen, [tok], name);
    VersionsOfOne(tok);
    if name !in versions {
      VersionedIffVersions(seen, name);
    }
  }

  /** The values step for every other name. */
  lemma AddVersionOtherNames(seen: seq<string>, tok: string, versions: map<string, set<string>>)
    requires forall n :: n in versions ==> versions[n] == Versions(seen, n)
    ensures forall n :: n in versions && (n != TokenName(tok) || !HasVersion(tok)) ==>
      AddVersion(tok, versions)[n] == Versions(seen + [tok], n)
  {
    forall n | n in versions && (n != TokenName(tok) || !HasVersion(tok))
      ensures AddVersion(tok, versions)[n] == Versions(seen + [tok], n)
    {
      VersionsConcat(seen, [tok], n);
      assert Versions([tok], n) == {};
    }
  }

  /** Adding one token's contribution keeps the inventory up to date. */
  lemma AddTokenKeepsInventory(seen: seq<string>, tok: string, all: set<string>, versions: map<string, set<string>>)
    requires Inventory(seen, all, versions)
    ensures Inventory(seen + [tok], AddName(tok, all), AddVersion(tok, versions))
  {
    AddNameStep(seen, tok, all);
    AddVersionKeysStep(seen, tok, versions);
    AddVersionOtherNames(seen, tok, versions);
    if TokenName(tok) != [] && HasVersion(tok) {
      AddVersionOwnName(seen, tok, versions);
    }
  }

  /** The collection loop: every string cell, every token of it; a
      non-empty name is added to `allTechnologies`, and a version, when the
      token has one, is added to that name's set in `techWithVersions`. */
  method CollectTechnologies(cells: seq<Cell>)
      returns (allTechnologies: set<string>, techWithVersions: map<string, set<string>>)
    ensures allTechnologies == NameSet(Tokens(cells))
    ensures techWithVersions.Keys == VersionedNames(Tokens(cells))
    ensures forall n :: n in techWithVersions ==> techWithVersions[n] == Versions(Tokens(cells), n)
  {
    allTechnologies := {};
    techWithVersions := map[];
    for i := 0 to |cells|
      invariant Inventory(Tokens(cells[..i]), allTechnologies, techWithVersions)
    {
      assert cells[..i + 1] == cells[..i] + [cells[i]];
      TokensSnoc(cells[..i], cells[i]);
      if cells[i].Text? {
        allTechnologies, techWithVersions :=
          CollectCell(cells[i].value, Tokens(cells[..i]), allTechnologies, techWithVersions);
      }
    }
    assert cells[..|cells|] == cells;
  }

  /** The inner loop of the collection over the tokens of one string cell,
      continuing the inventory of the tokens `before` it. */
  method CollectCell(value: string, ghost before: seq<string>,
                     allTechnologies: set<string>, techWithVersions: map<string, set<string>>)
      returns (all': set<string>, versions': map<string, set<string>>)
    requires Inventory(before, allTechnologies, techWithVersions)
    ensures Inventory(before + Split(value, ','), all', versions')
  {
    all', versions' := allTechnologies, techWithVersions;
    var items := Split(value, ',');
    for j := 0 to |items|
      invariant Inventory(before + items[..j], all', versions')
    {
      ghost var seen := before + items[..j];
      assert before + items[..j + 1] == seen + [items[j]];
      AddTokenKeepsInventory(seen, items[j], all', versions');
      all', versions' := CollectToken(items[j], all', versions');
    }
    assert items[..|items|] == items;
  }

  /** The body of the inner loop for one token `tech_item`. */
  method CollectToken(tok: string, all: set<string>, versions: map<string, set<string>>)
      returns (all': set<string>, versions': map<string, set<string>>)
    ensures all' == AddName(tok, all)
    ensures versions' == AddVersion(tok, versions)
  {
    all', versions' := all, versions;
    var parts := Split(Strip(tok), ':');
    var name := Strip(parts[0]);
    if name != [] {
      all' := all' + {name};
      if |parts| > 1 {
        var version := Strip(parts[1]);
        if name !in versions' {
          versions' := versions'[name := {}];
        }
        versions' := versions'[name := versions'[name] + {version}];
      }
    }
  }

  /** One printed summary entry: a technology alone, or with the versions
      shown for it. */
  datatype SummaryLine = Plain(tech: string) | WithVersions(tech: string, shown: seq<string>)

  const Ellipsis: string := "..."

  /** The versions shown: the first three, then "..." when there were more. */
  function Abbreviate(versions: seq<string>): seq<string> {
    if |versions| > 3 then versions[..3] + [Ellipsis] else versions
  }

  /** At most four entries are shown; the first ones are the first
      versions, in order; "..." is added exactly when more than three
      versions exist. */
  lemma AbbreviateShape(versions: seq<string>)
    ensures |Abbreviate(versions)| <= 4
    ensures |Abbreviate(versions)| == 4 <==> |versions| > 3
    ensures |Abbreviate(versions)| == 4 ==> Abbreviate(versions)[3] == Ellipsis
    ensures forall k :: 0 <= k < |Abbreviate(versions)| && k < 3 ==> Abbreviate(versions)[k] == versions[k]
    ensures |versions| <= 3 ==> Abbreviate(versions) == versions
  {
  }

  /** The entry for one technology. */
  function SummaryOf(tech: string, techWithVersions: map<string, set<string>>): SummaryLine {
    if tech in techWithVersions then WithVersions(tech, Abbreviate(SortedStrings(techWithVersions[tech])))
    else Plain(tech)
  }

  /** The whole summary: one entry per technology, in sorted order. */
  function Summary(all: set<string>, techWithVersions: map<string, set<string>>): seq<SummaryLine> {
    var sorted := SortedStrings(all);
    seq(|sorted|, i requires 0 <= i < |sorted| => SummaryOf(sorted[i], techWithVersions))
  }

  /** The summary lists every technology exactly once, in ascending order,
      one entry per distinct name; an entry shows versions exactly when the
      name has some, and never more than four. */
  lemma SummaryShape(all: set<string>, techWithVersions: map<string, set<string>>)
    ensures |Summary(all, techWithVersions)| == |all|
    ensures forall x :: x in all <==> exists i :: 0 <= i < |all| && Summary(all, techWithVersions)[i].tech == x
    ensures forall i, j :: 0 <= i < j < |all| ==>
      LexLess(Summary(all, techWithVersions)[i].tech, Summary(all, techWithVersions)[j].tech)
    ensures forall i :: 0 <= i < |all| ==>
      (Summary(all, techWithVersions)[i].WithVersions? <==> Summary(all, techWithVersions)[i].tech in techWithVersions)
    ensures forall i :: 0 <= i < |all| && Summary(all, techWithVersions)[i].WithVersions? ==>
      |Summary(all, techWithVersions)[i].shown| <= 4
  {
    var lines := Summary(all, techWithVersions);
    var sorted := SortedStrings(all);
    assert forall i :: 0 <= i < |all| ==> lines[i].tech == sorted[i];
    forall x | x in all
      ensures exists i :: 0 <= i < |all| && lines[i].tech == x
    {
      var i :| 0 <= i < |sorted| && sorted[i] == x;
    }
    forall i | 0 <= i < |all| && lines[i].WithVersions?
      ensures |lines[i].shown| <= 4
    {
      AbbreviateShape(SortedStrings(techWithVersions[sorted[i]]));
    }
  }

  /** One entry of the summary loop: a name alone, or with its first three
      sorted versions and '...' when there are more. */
  method SummarizeOne(tech: string, techWithVersions: map<string, set<string>>) returns (line: SummaryLine)
    ensures line == SummaryOf(tech, techWithVersions)
  {
    if tech in techWithVersions {
      var versionsFound := SortedStrings(techWithVersions[tech]);
      var displayVersions := if |versionsFound| > 3 then versionsFound[..3] else versionsFound;
      if |versionsFound| > 3 {
        displayVersions := displayVersions + [Ellipsis];
      }
      line := WithVersions(tech, displayVersions);
    } else {
      line := Plain(tech);
    }
  }

  /** The summary loop: the count of distinct names, then for each name in
      sorted order its entry, with at most three sorted versions and '...'. */
  method Summarize(all: set<string>, techWithVersions: map<string, set<string>>)
      returns (count: nat, lines: seq<SummaryLine>)
    ensures count == |all|
    ensures lines == Summary(all, techWithVersions)
  {
    count := |all|;
    var sortedTechs := SortedStrings(all);
    lines := [];
    for i := 0 to |sortedTechs|
      invariant |lines| == i
      invariant forall k :: 0 <= k < i ==> lines[k] == SummaryOf(sortedTechs[k], techWithVersions)
    {
      var line := SummarizeOne(sortedTechs[i], techWithVersions);
      lines := lines + [line];
    }
    assert lines == Summary(all, techWithVersions);
  }
}
