/** The lead scorer of add_call_lead_column.py: `should_call_lead` reads the
    'Technologies' cell of a row, collects the technology names it lists,
    adds up a fixed list of weighted rules over that set of names, and maps
    the total to 'High Priority', 'Medium Priority' or 'Low Priority'. */
module LeadPriority {
  import opened Sheet
  import opened Text
  import opened TechList

  datatype Priority = High | Medium | Low {
    /** The text written into the 'Priority' column. */
    function Label(): string {
      match this
      case High => "High Priority"
      case Medium => "Medium Priority"
      case Low => "Low Priority"
    }
  }

  const AncientTech: set<string> :=
    {"AngularJS", "Backbone.js", "DreamWeaver", "MooTools", "Prototype", "SWFObject", "jQuery Mobile"}
  const DiyBuilders: set<string> := {"GoDaddy Website Builder", "Mobirise", "Weebly", "Wix"}
  const AdvancedBuilders: set<string> := {"Squarespace", "Webflow"}
  const WpPlugins: set<string> :=
    {"WooCommerce", "Elementor", "wpBakery", "Revslider", "Gravity Forms",
     "W3 Total Cache", "WP Rocket", "WordPress Super Cache", "NitroPack"}
  const ComplexPlatforms: set<string> := {"Joomla", "Drupal", "BigCommerce", "Magento", "OpenCart"}
  const JQueryFamily: set<string> := {"jQuery", "jQuery UI", "jQuery Migrate"}
  const ModernFrameworks: set<string> :=
    {"React", "Angular", "Vue.js", "Next.js", "Nuxt.js", "Gatsby", "Svelte"}
  const ModernHosting: set<string> := {"Netlify", "Vercel"}
  const MarketingTools: set<string> := {"HubSpot", "Klaviyo", "MailChimp"}
  const Analytics: set<string> := {"Google Tag Manager", "Google Analytics"}

  /** Python's `any(t in technologies for t in group)`. */
  predicate AnyOf(group: set<string>, technologies: set<string>) {
    exists t :: t in group && t in technologies
  }

  /** The weighted rules, in the order the script applies them. */
  datatype Rule =
    | AncientTechRule | DiyBuilderRule | AdvancedBuilderRule | WordPressRule
    | ComplexPlatformRule | ShopifyRule | JQueryRule | PhpRule
    | ModernFrameworkRule | ModernHostingRule | MarketingRule | MissingAnalyticsRule

  /** The points one rule adds to (or takes from) the score of a set of names. */
  function Points(rule: Rule, t: set<string>): int {
    match rule
    case AncientTechRule => if AnyOf(AncientTech, t) then 10 else 0
    case DiyBuilderRule => if AnyOf(DiyBuilders, t) then 8 else 0
    case AdvancedBuilderRule => if AnyOf(AdvancedBuilders, t) then 4 else 0
    case WordPressRule => if "WordPress" in t then 5 + 2 * |t * WpPlugins| else 0
    case ComplexPlatformRule => if AnyOf(ComplexPlatforms, t) then 6 else 0
    case ShopifyRule => if "Shopify" in t then -4 else 0
    case JQueryRule => if AnyOf(JQueryFamily, t) then 2 else 0
    case PhpRule => if "PHP" in t then 2 else 0
    case ModernFrameworkRule => if AnyOf(ModernFrameworks, t) then -5 else 0
    case ModernHostingRule => if AnyOf(ModernHosting, t) then -3 else 0
    case MarketingRule => if AnyOf(MarketingTools, t) && !AnyOf(ModernFrameworks, t) then 3 else 0
    case MissingAnalyticsRule => if !AnyOf(Analytics, t) then 3 else 0
  }

  /** The score: every rule evaluated on its own, and the points summed. */
  function Score(t: set<string>): int {
    Points(AncientTechRule, t) + Points(DiyBuilderRule, t) + Points(AdvancedBuilderRule, t)
    + Points(WordPressRule, t) + Points(ComplexPlatformRule, t) + Points(ShopifyRule, t)
    + Points(JQueryRule, t) + Points(PhpRule, t) + Points(ModernFrameworkRule, t)
    + Points(ModernHostingRule, t) + Points(MarketingRule, t) + Points(MissingAnalyticsRule, t)
  }

  /** The two thresholds on the total. */
  function Classify(score: int): (p: Priority)
    ensures p == High <==> score >= 9
    ensures p == Medium <==> 5 <= score < 9
    ensures p == Low <==> score < 5
  {
    if score >= 9 then High else if score >= 5 then Medium else Low
  }

  /** What `should_call_lead` answers for a cell: a cell that is not a string,
      or is the analyzer's 'N/A', is a lead to call without scoring. */
  function LeadPriority(cell: Cell): Priority {
    if cell.NonText? || cell.value == "N/A" then High
    else Classify(Score(TechNames(cell.value)))
  }

  /** should_call_lead as the script runs it: non-string and 'N/A' cells
      first, then the parsing loop, the running score and the thresholds. */
  method ShouldCallLead(cell: Cell) returns (p: Priority)
    ensures p == LeadPriority(cell)
  {
    if cell.NonText? || cell.value == "N/A" {
      return High;
    }
    var technologies := ParseTechnologies(cell.value);
    var score := ScoreTechnologies(technologies);
    if score >= 9 {
      p := High;
    } else if score >= 5 {
      p := Medium;
    } else {
      p := Low;
    }
  }

  /** The parsing loop of should_call_lead: each token's name and version go
      into the dict `techDetails` (a later token of the same name replaces
      the version), and the technologies are the dict's keys. */
  method ParseTechnologies(s: string) returns (technologies: set<string>)
    ensures technologies == TechNames(s)
  {
    var techDetails: map<string, Option<string>> := map[];
    var items := Split(s, ',');
    var i := 0;
    while i < |items|
      invariant 0 <= i <= |items|
      invariant techDetails.Keys == NameSet(items[..i])
    {
      var parts := Split(Strip(items[i]), ':');
      var name := Strip(parts[0]);
      var version := if |parts| > 1 then Some(Strip(parts[1])) else None;
      ghost var before := techDetails.Keys;
      if name != [] {
        techDetails := techDetails[name := version];
        assert techDetails.Keys == before + {name};
      }
      assert techDetails.Keys == before + (if name == [] then {} else {name});
      assert name == TokenName(items[i]);
      NameSetStep(items, i);
      i := i + 1;
    }
    assert items[..i] == items;
    technologies := techDetails.Keys;
  }

  /** The rules of should_call_lead applied one after the other to a running
      score; each rule looks only at the set of names. */
  method ScoreTechnologies(technologies: set<string>) returns (score: int)
    ensures score == Score(technologies)
  {
    var t := technologies;
    score := 0;
    if AnyOf(AncientTech, technologies) {
      score := score + 10;
    }
    assert score == Points(AncientTechRule, t);
    if AnyOf(DiyBuilders, technologies) {
      score := score + 8;
    }
    if AnyOf(AdvancedBuilders, technologies) {
      score := score + 4;
    }
    assert score == Points(AncientTechRule, t) + Points(DiyBuilderRule, t) + Points(AdvancedBuilderRule, t);
    ghost var builders := score;
    if "WordPress" in technologies {
      score := score + 5;
      var foundPlugins := technologies * WpPlugins;
      score := score + |foundPlugins| * 2;
    }
    assert score == builders + Points(WordPressRule, t);
    ghost var wordPress := score;
    if AnyOf(ComplexPlatforms, technologies) {
      score := score + 6;
    }
    if "Shopify" in technologies {
      score := score - 4;
    }
    assert score == wordPress + Points(ComplexPlatformRule, t) + Points(ShopifyRule, t);
    ghost var platforms := score;
    assert AnyOf(JQueryFamily, t) <==> "jQuery" in t || "jQuery UI" in t || "jQuery Migrate" in t;
    if "jQuery" in technologies || "jQuery UI" in technologies || "jQuery Migrate" in technologies {
      score := score + 2;
    }
    if "PHP" in technologies {
      score := score + 2;
    }
    assert score == platforms + Points(JQueryRule, t) + Points(PhpRule, t);
    ghost var libraries := score;
    if AnyOf(ModernFrameworks, technologies) {
      score := score - 5;
    }
    if AnyOf(ModernHosting, technologies) {
      score := score - 3;
    }
    assert score == libraries + Points(ModernFrameworkRule, t) + Points(ModernHostingRule, t);
    ghost var modern := score;
    if AnyOf(MarketingTools, technologies) && !AnyOf(ModernFrameworks, technologies) {
      score := score + 3;
    }
    assert AnyOf(Analytics, t) <==> "Google Tag Manager" in t || "Google Analytics" in t;
    if "Google Tag Manager" !in technologies && "Google Analytics" !in technologies {
      score := score + 3;
    }
    assert score == modern + Points(MarketingRule, t) + Points(MissingAnalyticsRule, t);
  }

  /** A row without detection data is always a lead to call. */
  lemma NoDataIsHighPriority()
    ensures LeadPriority(NonText) == High
    ensures LeadPriority(Text("N/A")) == High
  {
  }

  /** The thresholds at their edges. */
  lemma ThresholdBoundaries()
    ensures Classify(9) == High && Classify(8) == Medium
    ensures Classify(5) == Medium && Classify(4) == Low
  {
  }

  /** At most the nine listed plugins can be found. */
  lemma PluginCountAtMostNine(t: set<string>)
    ensures |t * WpPlugins| <= 9
  {
    PluginListSize();
    assert t * WpPlugins <= WpPlugins;
    SubsetCardinality(t * WpPlugins, WpPlugins);
  }

  /** The nine listed plugins are nine different names. */
  lemma PluginListSize()
    ensures |WpPlugins| == 9
  {
  }

  lemma {:induction false} SubsetCardinality(a: set<string>, b: set<string>)
    requires a <= b
    ensures |a| <= |b|
    decreases |b|
  {
    if a != {} {
      var x :| x in a;
      SubsetCardinality(a - {x}, b - {x});
    }
  }

  /** Every total lies between the sum of the negative weights (-12) and the
      sum of the positive ones, nine plugins included (61). */
  lemma ScoreBounds(t: set<string>)
    ensures -12 <= Score(t) <= 61
  {
    PluginCountAtMostNine(t);
  }

  /** A set of names that scores every positive rule: one name of each
      group, WordPress with all nine plugins, and none of the negative ones. */
  const TopScorer: set<string> :=
    {"AngularJS", "Wix", "Squarespace", "WordPress", "WooCommerce", "Elementor",
     "wpBakery", "Revslider", "Gravity Forms", "W3 Total Cache", "WP Rocket",
     "WordPress Super Cache", "NitroPack", "Joomla", "jQuery", "PHP", "HubSpot"}

  lemma TopScorerBuilders()
    ensures Points(AncientTechRule, TopScorer) == 10
    ensures Points(DiyBuilderRule, TopScorer) == 8
    ensures Points(AdvancedBuilderRule, TopScorer) == 4
  {
    assert "AngularJS" in AncientTech && "Wix" in DiyBuilders && "Squarespace" in AdvancedBuilders;
  }

  lemma TopScorerWordPress()
    ensures Points(WordPressRule, TopScorer) == 23
  {
    assert WpPlugins <= TopScorer;
    assert TopScorer * WpPlugins == WpPlugins;
    PluginListSize();
  }

  lemma TopScorerPlatforms()
    ensures Points(ComplexPlatformRule, TopScorer) == 6
    ensures Points(ShopifyRule, TopScorer) == 0
    ensures Points(JQueryRule, TopScorer) == 2
    ensures Points(PhpRule, TopScorer) == 2
  {
    assert "Joomla" in ComplexPlatforms && "jQuery" in JQueryFamily;
  }

  lemma TopScorerModern()
    ensures Points(ModernFrameworkRule, TopScorer) == 0
    ensures Points(ModernHostingRule, TopScorer) == 0
    ensures Points(MarketingRule, TopScorer) == 3
    ensures Points(MissingAnalyticsRule, TopScorer) == 3
  {
    assert !AnyOf(ModernFrameworks, TopScorer);
    assert !AnyOf(ModernHosting, TopScorer);
    assert !AnyOf(Analytics, TopScorer);
    assert "HubSpot" in MarketingTools;
  }

  /** The upper bound is reached. */
  lemma ScoreMaximumReached()
    ensures Score(TopScorer) == 61
  {
    TopScorerBuilders();
    TopScorerWordPress();
    TopScorerPlatforms();
    TopScorerModern();
  }

  /** A set of names that scores every negative rule and no positive one. */
  const BottomScorer: set<string> := {"Shopify", "React", "Netlify", "Google Analytics"}

  lemma BottomScorerPositive()
    ensures Points(AncientTechRule, BottomScorer) == 0
    ensures Points(DiyBuilderRule, BottomScorer) == 0
    ensures Points(AdvancedBuilderRule, BottomScorer) == 0
    ensures Points(WordPressRule, BottomScorer) == 0
    ensures Points(ComplexPlatformRule, BottomScorer) == 0
    ensures Points(JQueryRule, BottomScorer) == 0
    ensures Points(PhpRule, BottomScorer) == 0
  {
    assert !AnyOf(AncientTech, BottomScorer) && !AnyOf(DiyBuilders, BottomScorer);
    assert !AnyOf(AdvancedBuilders, BottomScorer) && !AnyOf(ComplexPlatforms, BottomScorer);
    assert !AnyOf(JQueryFamily, BottomScorer);
  }

  lemma BottomScorerNegative()
    ensures Points(ShopifyRule, BottomScorer) == -4
    ensures Points(ModernFrameworkRule, BottomScorer) == -5
    ensures Points(ModernHostingRule, BottomScorer) == -3
    ensures Points(MarketingRule, BottomScorer) == 0
    ensures Points(MissingAnalyticsRule, BottomScorer) == 0
  {
    assert "React" in ModernFrameworks && "Netlify" in ModernHosting && "Google Analytics" in Analytics;
  }

  /** The lower bound is reached. */
  lemma ScoreMinimumReached()
    ensures Score({"Shopify", "React", "Netlify", "Google Analytics"}) == -12
  {
    BottomScorerPositive();
    BottomScorerNegative();
  }

  /** Adding one name to a set makes a group present exactly when it was
      already present or the name belongs to the group. */
  lemma AnyOfAdd(group: set<string>, t: set<string>, x: string)
    ensures AnyOf(group, t + {x}) <==> AnyOf(group, t) || x in group
  {
    if x in group {
      assert x in t + {x};
    }
  }

  /** The groups whose rule adds a fixed amount, however many of their
      members are present. */
  predicate FlatGroup(g: set<string>) {
    g == AncientTech || g == DiyBuilders || g == AdvancedBuilders || g == ComplexPlatforms
    || g == JQueryFamily || g == ModernFrameworks || g == ModernHosting
  }

  /** A name of a flat group is none of the names other rules test alone. */
  lemma FlatGroupMemberElsewhere(g: set<string>, x: string)
    requires FlatGroup(g) && x in g
    ensures x !in WpPlugins && x !in MarketingTools && x !in Analytics
    ensures x != "WordPress" && x != "Shopify" && x != "PHP"
  {
  }

  /** The flat groups do not overlap. */
  lemma FlatGroupsDisjoint(g: set<string>, x: string)
    requires FlatGroup(g) && x in g
    ensures g != AncientTech ==> x !in AncientTech
    ensures g != DiyBuilders ==> x !in DiyBuilders
    ensures g != AdvancedBuilders ==> x !in AdvancedBuilders
    ensures g != ComplexPlatforms ==> x !in ComplexPlatforms
    ensures g != JQueryFamily ==> x !in JQueryFamily
    ensures g != ModernFrameworks ==> x !in ModernFrameworks
    ensures g != ModernHosting ==> x !in ModernHosting
  {
  }

  /** Which rule holds a given name, for the names the rules mention. */
  lemma FlatGroupMember(g: set<string>, x: string)
    requires FlatGroup(g) && x in g
    ensures x !in WpPlugins && x !in MarketingTools && x !in Analytics
    ensures x != "WordPress" && x != "Shopify" && x != "PHP"
    ensures g != AncientTech ==> x !in AncientTech
    ensures g != DiyBuilders ==> x !in DiyBuilders
    ensures g != AdvancedBuilders ==> x !in AdvancedBuilders
    ensures g != ComplexPlatforms ==> x !in ComplexPlatforms
    ensures g != JQueryFamily ==> x !in JQueryFamily
    ensures g != ModernFrameworks ==> x !in ModernFrameworks
    ensures g != ModernHosting ==> x !in ModernHosting
  {
    FlatGroupMemberElsewhere(g, x);
    FlatGroupsDisjoint(g, x);
  }

  /** Every group a name belongs to is already present in `t`, and a name
      that a rule tests on its own (WordPress, a plugin, Shopify, PHP) is
      already in `t`. */
  predicate AlreadyCounted(t: set<string>, x: string) {
    (x in AncientTech ==> AnyOf(AncientTech, t))
    && (x in DiyBuilders ==> AnyOf(DiyBuilders, t))
    && (x in AdvancedBuilders ==> AnyOf(AdvancedBuilders, t))
    && (x in ComplexPlatforms ==> AnyOf(ComplexPlatforms, t))
    && (x in JQueryFamily ==> AnyOf(JQueryFamily, t))
    && (x in ModernFrameworks ==> AnyOf(ModernFrameworks, t))
    && (x in ModernHosting ==> AnyOf(ModernHosting, t))
    && (x in MarketingTools ==> AnyOf(MarketingTools, t))
    && (x in Analytics ==> AnyOf(Analytics, t))
    && (x in WpPlugins || x == "WordPress" || x == "Shopify" || x == "PHP" ==> x in t)
  }

  lemma RulePointsUnchanged(rule: Rule, t: set<string>, x: string)
    requires AlreadyCounted(t, x)
    ensures Points(rule, t + {x}) == Points(rule, t)
  {
    match rule
    case AncientTechRule => AnyOfAdd(AncientTech, t, x);
    case DiyBuilderRule => AnyOfAdd(DiyBuilders, t, x);
    case AdvancedBuilderRule => AnyOfAdd(AdvancedBuilders, t, x);
    case WordPressRule =>
      if x in WpPlugins {
        assert t + {x} == t;
      } else {
        assert (t + {x}) * WpPlugins == t * WpPlugins;
      }
    case ComplexPlatformRule => AnyOfAdd(ComplexPlatforms, t, x);
    case ShopifyRule =>
    case JQueryRule => AnyOfAdd(JQueryFamily, t, x);
    case PhpRule =>
    case ModernFrameworkRule => AnyOfAdd(ModernFrameworks, t, x);
    case ModernHostingRule => AnyOfAdd(ModernHosting, t, x);
    case MarketingRule =>
      AnyOfAdd(MarketingTools, t, x);
      AnyOfAdd(ModernFrameworks, t, x);
    case MissingAnalyticsRule => AnyOfAdd(Analytics, t, x);
  }

  /** A name whose groups are all present already leaves the score as it was. */
  lemma AddingCountedName(t: set<string>, x: string)
    requires AlreadyCounted(t, x)
    ensures Score(t + {x}) == Score(t)
  {
    RulePointsUnchanged(AncientTechRule, t, x);
    RulePointsUnchanged(DiyBuilderRule, t, x);
    RulePointsUnchanged(AdvancedBuilderRule, t, x);
    RulePointsUnchanged(WordPressRule, t, x);
    RulePointsUnchanged(ComplexPlatformRule, t, x);
    RulePointsUnchanged(ShopifyRule, t, x);
    RulePointsUnchanged(JQueryRule, t, x);
    RulePointsUnchanged(PhpRule, t, x);
    RulePointsUnchanged(ModernFrameworkRule, t, x);
    RulePointsUnchanged(ModernHostingRule, t, x);
    RulePointsUnchanged(MarketingRule, t, x);
    RulePointsUnchanged(MissingAnalyticsRule, t, x);
  }

  /** Group rules are flat: once one member of a group is present, a
      further member of the same group leaves the score unchanged. */
  lemma FlatGroupCountsOnce(g: set<string>, t: set<string>, x: string)
    requires FlatGroup(g) && x in g && AnyOf(g, t)
    ensures Score(t + {x}) == Score(t)
  {
    FlatGroupMember(g, x);
    AddingCountedName(t, x);
  }

  /** Whether a rule looks at a name at all. */
  predicate Tests(rule: Rule, x: string) {
    match rule
    case AncientTechRule => x in AncientTech
    case DiyBuilderRule => x in DiyBuilders
    case AdvancedBuilderRule => x in AdvancedBuilders
    case WordPressRule => x == "WordPress" || x in WpPlugins
    case ComplexPlatformRule => x in ComplexPlatforms
    case ShopifyRule => x == "Shopify"
    case JQueryRule => x in JQueryFamily
    case PhpRule => x == "PHP"
    case ModernFrameworkRule => x in ModernFrameworks
    case ModernHostingRule => x in ModernHosting
    case MarketingRule => x in MarketingTools || x in ModernFrameworks
    case MissingAnalyticsRule => x in Analytics
  }

  /** Adding a name a rule does not look at leaves that rule's points alone. */
  lemma RuleIgnores(rule: Rule, t: set<string>, x: string)
    requires !Tests(rule, x)
    ensures Points(rule, t + {x}) == Points(rule, t)
  {
    match rule
    case AncientTechRule => AnyOfAdd(AncientTech, t, x);
    case DiyBuilderRule => AnyOfAdd(DiyBuilders, t, x);
    case AdvancedBuilderRule => AnyOfAdd(AdvancedBuilders, t, x);
    case WordPressRule => assert (t + {x}) * WpPlugins == t * WpPlugins;
    case ComplexPlatformRule => AnyOfAdd(ComplexPlatforms, t, x);
    case ShopifyRule =>
    case JQueryRule => AnyOfAdd(JQueryFamily, t, x);
    case PhpRule =>
    case ModernFrameworkRule => AnyOfAdd(ModernFrameworks, t, x);
    case ModernHostingRule => AnyOfAdd(ModernHosting, t, x);
    case MarketingRule =>
      AnyOfAdd(MarketingTools, t, x);
      AnyOfAdd(ModernFrameworks, t, x);
    case MissingAnalyticsRule => AnyOfAdd(Analytics, t, x);
  }

  /** When only one rule looks at a name, adding the name changes the score
      by exactly the change in that rule's points. */
  lemma OnlyRuleChanges(only: Rule, t: set<string>, x: string)
    requires forall r: Rule :: r != only ==> !Tests(r, x)
    ensures Score(t + {x}) == Score(t) + Points(only, t + {x}) - Points(only, t)
  {
    forall r: Rule | r != only
      ensures Points(r, t + {x}) == Points(r, t)
    {
      RuleIgnores(r, t, x);
    }
  }

  /** The plugin bonus: a further listed plugin is worth 2 points exactly
      when WordPress is present, and nothing without it. */
  lemma PluginBonus(t: set<string>, x: string)
    requires x in WpPlugins && x !in t
    ensures Score(t + {x}) == Score(t) + (if "WordPress" in t then 2 else 0)
  {
    assert forall r: Rule :: r != WordPressRule ==> !Tests(r, x);
    OnlyRuleChanges(WordPressRule, t, x);
    if "WordPress" in t {
      assert (t + {x}) * WpPlugins == t * WpPlugins + {x};
    }
  }

  /** The first marketing tool is worth 3 points, unless a modern framework
      is present. */
  lemma MarketingBonus(t: set<string>, m: string)
    requires m in MarketingTools && !AnyOf(MarketingTools, t)
    ensures Score(t + {m}) == Score(t) + (if AnyOf(ModernFrameworks, t) then 0 else 3)
  {
    assert forall r: Rule :: r != MarketingRule ==> !Tests(r, m);
    OnlyRuleChanges(MarketingRule, t, m);
    AnyOfAdd(MarketingTools, t, m);
    AnyOfAdd(ModernFrameworks, t, m);
  }

  /** The first modern framework costs its own 5 points and, on a site with
      a marketing tool, the 3 marketing points as well. */
  lemma ModernFrameworkCancelsMarketing(t: set<string>, f: string)
    requires f in ModernFrameworks && !AnyOf(ModernFrameworks, t)
    ensures Score(t + {f}) == Score(t) - 5 - (if AnyOf(MarketingTools, t) then 3 else 0)
  {
    assert forall r: Rule :: r != ModernFrameworkRule && r != MarketingRule ==> !Tests(r, f);
    forall r: Rule | r != ModernFrameworkRule && r != MarketingRule
      ensures Points(r, t + {f}) == Points(r, t)
    {
      RuleIgnores(r, t, f);
    }
    AnyOfAdd(MarketingTools, t, f);
    AnyOfAdd(ModernFrameworks, t, f);
  }

  /** The missing-analytics points are lost with the first analytics tool. */
  lemma AnalyticsRemovesBonus(t: set<string>, a: string)
    requires a in Analytics && !AnyOf(Analytics, t)
    ensures Score(t + {a}) == Score(t) - 3
  {
    assert forall r: Rule :: r != MissingAnalyticsRule ==> !Tests(r, a);
    OnlyRuleChanges(MissingAnalyticsRule, t, a);
    AnyOfAdd(Analytics, t, a);
  }

  /** Without WordPress the plugins are worth nothing: the score is the one
      of the same names with every plugin removed. */
  lemma PluginsNeedWordPress(t: set<string>)
    requires "WordPress" !in t
    ensures Score(t) == Score(t - WpPlugins)
  {
    var u := t - WpPlugins;
    forall r: Rule | r != WordPressRule
      ensures Points(r, t) == Points(r, u)
    {
      PointsOutsidePlugins(r, t);
    }
  }

  /** Removing names outside a group does not change whether it is present. */
  lemma AnyOfWithout(group: set<string>, t: set<string>, removed: set<string>)
    requires group !! removed
    ensures AnyOf(group, t - removed) == AnyOf(group, t)
  {
    if AnyOf(group, t) {
      var y :| y in group && y in t;
      assert y in t - removed;
    }
  }

  lemma PluginsApartFromBuilders()
    ensures AncientTech !! WpPlugins && DiyBuilders !! WpPlugins && AdvancedBuilders !! WpPlugins
  {
  }

  lemma PluginsApartFromPlatforms()
    ensures ComplexPlatforms !! WpPlugins && JQueryFamily !! WpPlugins
  {
  }

  lemma PluginsApartFromModern()
    ensures ModernFrameworks !! WpPlugins && ModernHosting !! WpPlugins
    ensures MarketingTools !! WpPlugins && Analytics !! WpPlugins
    ensures "Shopify" !in WpPlugins && "PHP" !in WpPlugins
  {
  }

  /** The rules other than WordPress's never look at a plugin name. */
  lemma PointsOutsidePlugins(rule: Rule, t: set<string>)
    requires rule != WordPressRule
    ensures Points(rule, t) == Points(rule, t - WpPlugins)
  {
    PluginsApartFromBuilders();
    PluginsApartFromPlatforms();
    PluginsApartFromModern();
    match rule
    case AncientTechRule => AnyOfWithout(AncientTech, t, WpPlugins);
    case DiyBuilderRule => AnyOfWithout(DiyBuilders, t, WpPlugins);
    case AdvancedBuilderRule => AnyOfWithout(AdvancedBuilders, t, WpPlugins);
    case ComplexPlatformRule => AnyOfWithout(ComplexPlatforms, t, WpPlugins);
    case ShopifyRule =>
    case JQueryRule => AnyOfWithout(JQueryFamily, t, WpPlugins);
    case PhpRule =>
    case ModernFrameworkRule => AnyOfWithout(ModernFrameworks, t, WpPlugins);
    case ModernHostingRule => AnyOfWithout(ModernHosting, t, WpPlugins);
    case MarketingRule =>
      AnyOfWithout(MarketingTools, t, WpPlugins);
      AnyOfWithout(ModernFrameworks, t, WpPlugins);
    case MissingAnalyticsRule => AnyOfWithout(Analytics, t, WpPlugins);
  }

  /** The checks PlainName makes, one name at a time. */
  lemma PlainNameLiteral(n: string)
    requires n != [] && !IsSpace(n[0]) && !IsSpace(n[|n| - 1])
    requires forall i :: 0 <= i < |n| ==> n[i] != ',' && n[i] != ':'
    ensures PlainName(n)
  {
  }

  /** Two plain names joined with ", " are read back as those names. */
  lemma TechNamesOfTwo(a: string, b: string)
    requires PlainName(a) && PlainName(b)
    ensures TechNames(a + ", " + b) == {a, b}
  {
    var names := [a, b];
    assert Join(names, ", ") == a + ", " + b;
    TechNamesOfJoined(names);
    assert forall n :: n in names <==> n == a || n == b;
  }

  /** Three plain names joined with ", " are read back as those names. */
  lemma TechNamesOfThree(a: string, b: string, c: string)
    requires PlainName(a) && PlainName(b) && PlainName(c)
    ensures TechNames(a + ", " + b + ", " + c) == {a, b, c}
  {
    var names := [a, b, c];
    assert names[1..] == [b, c];
    assert Join(names[1..], ", ") == b + ", " + c;
    assert Join(names, ", ") == a + ", " + b + ", " + c;
    TechNamesOfJoined(names);
    assert forall n :: n in names <==> n == a || n == b || n == c;
  }

  /** Only the WordPress rule looks at the name WordPress, which is not a plugin. */
  lemma WordPressTestedOnce()
    ensures forall r: Rule :: r != WordPressRule ==> !Tests(r, "WordPress")
    ensures "WordPress" !in WpPlugins
  {
  }

  /** WordPress itself is worth 5 points plus 2 for each listed plugin
      already present. */
  lemma WordPressBonus(t: set<string>)
    requires "WordPress" !in t
    ensures Score(t + {"WordPress"}) == Score(t) + 5 + 2 * |t * WpPlugins|
  {
    WordPressTestedOnce();
    OnlyRuleChanges(WordPressRule, t, "WordPress");
    assert (t + {"WordPress"}) * WpPlugins == t * WpPlugins;
  }

  /** Shopify costs 4 points. */
  lemma ShopifyPenalty(t: set<string>)
    requires "Shopify" !in t
    ensures Score(t + {"Shopify"}) == Score(t) - 4
  {
    assert forall r: Rule :: r != ShopifyRule ==> !Tests(r, "Shopify");
    OnlyRuleChanges(ShopifyRule, t, "Shopify");
  }

  /** The first modern host costs 3 points. */
  lemma ModernHostingPenalty(t: set<string>, h: string)
    requires h in ModernHosting && !AnyOf(ModernHosting, t)
    ensures Score(t + {h}) == Score(t) - 3
  {
    assert forall r: Rule :: r != ModernHostingRule ==> !Tests(r, h);
    OnlyRuleChanges(ModernHostingRule, t, h);
    AnyOfAdd(ModernHosting, t, h);
  }

  /** A WordPress shop with two listed plugins: 3 + 5 + 2 + 2 = 12. */
  lemma WordPressShopScore()
    ensures Score({"WordPress", "WooCommerce", "Elementor"}) == 12
  {
    EmptyScore();
    var t0: set<string> := {};
    WordPressBonus(t0);
    var t1 := t0 + {"WordPress"};
    PluginBonus(t1, "WooCommerce");
    var t2 := t1 + {"WooCommerce"};
    PluginBonus(t2, "Elementor");
    assert t2 + {"Elementor"} == {"WordPress", "WooCommerce", "Elementor"};
  }

  lemma WordPressShopSpelling()
    ensures PlainName("WordPress") && PlainName("WooCommerce") && PlainName("Elementor")
  {
    PlainNameLiteral("WordPress");
    PlainNameLiteral("WooCommerce");
    PlainNameLiteral("Elementor");
  }

  lemma WordPressShopNames()
    ensures TechNames("WordPress, WooCommerce, Elementor") == {"WordPress", "WooCommerce", "Elementor"}
  {
    WordPressShopSpelling();
    assert "WordPress" + ", " + "WooCommerce" + ", " + "Elementor" == "WordPress, WooCommerce, Elementor";
    TechNamesOfThree("WordPress", "WooCommerce", "Elementor");
  }

  /** The cell "WordPress, WooCommerce, Elementor" is a lead to call. */
  lemma WordPressShopExample()
    ensures Score(TechNames("WordPress, WooCommerce, Elementor")) == 12
    ensures LeadPriority(Text("WordPress, WooCommerce, Elementor")) == High
  {
    WordPressShopNames();
    WordPressShopScore();
  }

  /** A Shopify store with analytics: 3 - 4 - 3 = -4. */
  lemma ShopifyScore()
    ensures Score({"Shopify", "Google Analytics"}) == -4
  {
    EmptyScore();
    var t0: set<string> := {};
    ShopifyPenalty(t0);
    var t1 := t0 + {"Shopify"};
    AnalyticsRemovesBonus(t1, "Google Analytics");
    assert t1 + {"Google Analytics"} == {"Shopify", "Google Analytics"};
  }

  lemma ShopifyNames()
    ensures TechNames("Shopify, Google Analytics") == {"Shopify", "Google Analytics"}
  {
    assert "Shopify" + ", " + "Google Analytics" == "Shopify, Google Analytics";
    TechNamesOfTwo("Shopify", "Google Analytics");
  }

  /** The cell "Shopify, Google Analytics" is not a lead to call. */
  lemma ShopifyExample()
    ensures Score(TechNames("Shopify, Google Analytics")) == -4
    ensures LeadPriority(Text("Shopify, Google Analytics")) == Low
  {
    ShopifyNames();
    ShopifyScore();
  }

  /** A modern stack: 3 - 5 - 3 - 3 = -8. */
  lemma ModernStackScore()
    ensures Score({"React", "Vercel", "Google Tag Manager"}) == -8
  {
    EmptyScore();
    var t0: set<string> := {};
    ModernFrameworkCancelsMarketing(t0, "React");
    var t1 := t0 + {"React"};
    ModernHostingPenalty(t1, "Vercel");
    var t2 := t1 + {"Vercel"};
    AnalyticsRemovesBonus(t2, "Google Tag Manager");
    assert t2 + {"Google Tag Manager"} == {"React", "Vercel", "Google Tag Manager"};
  }

  lemma ModernStackSpelling()
    ensures PlainName("React") && PlainName("Vercel") && PlainName("Google Tag Manager")
  {
    PlainNameLiteral("React");
    PlainNameLiteral("Vercel");
    PlainNameLiteral("Google Tag Manager");
  }

  lemma ModernStackNames()
    ensures TechNames("React, Vercel, Google Tag Manager") == {"React", "Vercel", "Google Tag Manager"}
  {
    ModernStackSpelling();
    assert "React" + ", " + "Vercel" + ", " + "Google Tag Manager" == "React, Vercel, Google Tag Manager";
    TechNamesOfThree("React", "Vercel", "Google Tag Manager");
  }

  /** The cell "React, Vercel, Google Tag Manager" is not a lead to call. */
  lemma ModernStackExample()
    ensures Score(TechNames("React, Vercel, Google Tag Manager")) == -8
    ensures LeadPriority(Text("React, Vercel, Google Tag Manager")) == Low
  {
    ModernStackNames();
    ModernStackScore();
  }

  /** Only the missing-analytics rule fires on an empty set of names. */
  lemma EmptyScore()
    ensures Score({}) == 3
  {
    var t: set<string> := {};
    assert !AnyOf(AncientTech, t) && !AnyOf(DiyBuilders, t) && !AnyOf(AdvancedBuilders, t);
    assert !AnyOf(ComplexPlatforms, t) && !AnyOf(JQueryFamily, t) && !AnyOf(ModernFrameworks, t);
    assert !AnyOf(ModernHosting, t) && !AnyOf(MarketingTools, t) && !AnyOf(Analytics, t);
  }

  /** An empty string is not the 'N/A' sentinel: it names nothing and only
      the missing-analytics rule fires, which is a low priority. */
  lemma EmptyStringExample()
    ensures TechNames("") == {}
    ensures LeadPriority(Text("")) == Low
  {
    TechNamesOfToken("");
    EmptyScore();
  }

  /** A list holding a ',' is never the 'N/A' sentinel, so it is scored. */
  lemma ListIsScored(a: string, b: string)
    ensures LeadPriority(Text(a + [','] + b)) == Classify(Score(TechNames(a + [','] + b)))
  {
    assert (a + [','] + b)[|a|] == ',';
    assert "N/A"[0] != ',' && "N/A"[1] != ',' && "N/A"[2] != ',';
  }

  /** Swapping two parts of the list does not change the label. */
  lemma PriorityIgnoresTokenOrder(a: string, b: string)
    ensures LeadPriority(Text(a + [','] + b)) == LeadPriority(Text(b + [','] + a))
  {
    ListIsScored(a, b);
    ListIsScored(b, a);
    TechNamesReorder(a, b);
  }

  /** Listing a part twice does not change the label (a cell that is 'N/A'
      itself is the one exception: it is the sentinel, its repetition is not). */
  lemma PriorityIgnoresDuplicates(a: string)
    requires a != "N/A"
    ensures LeadPriority(Text(a + [','] + a)) == LeadPriority(Text(a))
  {
    ListIsScored(a, a);
    TechNamesReorder(a, a);
  }

  /** Two cells listing the same tokens, in any order and with any
      repetition, get the same label, unless one of them is the 'N/A'
      sentinel itself. */
  lemma PriorityDependsOnlyOnTokens(s1: string, s2: string)
    requires s1 != "N/A" && s2 != "N/A"
    requires forall t :: t in Split(s1, ',') <==> t in Split(s2, ',')
    ensures LeadPriority(Text(s1)) == LeadPriority(Text(s2))
  {
    NameSetSameTokens(Split(s1, ','), Split(s2, ','));
  }

  /** Whitespace around a single token does not change the label. */
  lemma PriorityIgnoresSpacing(w1: string, t: string, w2: string)
    requires AllSpace(w1) && AllSpace(w2) && ',' !in t
    requires t != "N/A" && w1 + t + w2 != "N/A"
    ensures LeadPriority(Text(w1 + t + w2)) == LeadPriority(Text(t))
  {
    assert ',' !in w1 + t + w2 by {
      assert forall i :: 0 <= i < |w1| ==> IsSpace(w1[i]);
      assert forall i :: 0 <= i < |w2| ==> IsSpace(w2[i]);
    }
    TechNamesOfToken(w1 + t + w2);
    TechNamesOfToken(t);
    TokenSurroundingSpace(w1, t, w2);
  }

  /** Adding or changing a ':version' suffix does not change the label. */
  lemma PriorityIgnoresVersion(n: string, v: string)
    requires ':' !in n && ',' !in n && ',' !in v && n != "N/A"
    ensures LeadPriority(Text(n + [':'] + v)) == LeadPriority(Text(n))
  {
    assert (n + [':'] + v)[|n|] == ':';
    assert "N/A"[0] != ':' && "N/A"[1] != ':' && "N/A"[2] != ':';
    assert n + [':'] + v != "N/A";
    TechNamesOfToken(n + [':'] + v);
    TechNamesOfToken(n);
    TokenNameIgnoresVersion(n, v);
  }

  /** A token whose name is empty (blank, or only a ':version') adds nothing. */
  lemma PriorityIgnoresEmptyName(a: string, e: string)
    requires ',' !in e && TokenName(e) == [] && a != "N/A"
    ensures LeadPriority(Text(a + [','] + e)) == LeadPriority(Text(a))
  {
    ListIsScored(a, e);
    TechNamesIgnoresEmptyName(a, e);
  }
}
