# sheet-wappalyzer: the lead scorer, the result shaping and the technology inventory

This project models the three pieces of deterministic logic inside the
repository's spreadsheet scripts and proves properties of them in Dafny.

- **Lead priority scorer** (`should_call_lead` in `add_call_lead_column.py`):
  - A 'Technologies' cell that is not a string, or is exactly `N/A`, is a lead
    to call.
  - Any other cell is parsed into a set of technology names. A name is the
    stripped text before the first `:` of each comma-separated token, and empty
    names are dropped.
  - Twelve weighted rules are summed over that set. The total is mapped to
    'High Priority' (9 and above), 'Medium Priority' (5 to 8) or
    'Low Priority'.
  - `LeadPriority.ShouldCallLead` is the script's procedure: a parsing loop
    filling the `techDetails` map, then a running score. It is proved equal to
    the specification function `LeadPriority.LeadPriority`.
- **Per-URL result shaping and aggregation** (`analyze_websites.py`):
  - the guard on the URL cell;
  - the `https://` prefixing;
  - the sorted, `", "`-joined rendering of a detection, with the `N/A`
    sentinel;
  - the classification of request errors into a status text;
  - the loop that turns the gathered results, exceptions included, into the
    'Technologies' and 'Status' columns.

  The request and the fingerprinting are a parameter: a function from the
  requested URL to a `FetchOutcome`.
- **Technology inventory** (`inspect_file.py`):
  - the pass over every cell that collects the set of names and, for each
    name, the accumulated set of versions;
  - the sorted summary, which shows at most three versions per name, followed
    by `...` when there are more.

  Both loops are methods, proved against specification functions over the
  column's tokens.

Python's `str.strip`, `str.split`, `', '.join`, the `in` substring test and
`sorted` on strings are modelled in module `Text`:

- `strip` removes the characters `str.isspace` accepts.
- `split` always returns at least one piece.
- `sorted` orders strings by code point.

The token format shared by the scorer and the inventory is modelled in module
`TechList`. A spreadsheet cell is `Sheet.Cell`: either text or a non-string
value (a missing value or a number).

## Model

| member | source | states |
|---|---|---|
| LeadPriority.ShouldCallLead | add_call_lead_column.py:4-88 | the label is High for a non-string or 'N/A' cell, and otherwise the thresholds applied to the score of the cell's parsed names |
| LeadPriority.ParseTechnologies | add_call_lead_column.py:15-22 | after the loop, the keys of `techDetails` are exactly the non-empty stripped names before the first ':' of the comma-separated tokens |
| LeadPriority.ScoreTechnologies | add_call_lead_column.py:12-80 | the running score after the thirteen conditional updates equals the sum of the twelve rules' points |
| LeadPriority.Classify | add_call_lead_column.py:83-88 | High exactly when the score is at least 9, Medium exactly when it is 5 to 8, Low exactly when it is below 5 |
| LeadPriority.NoDataIsHighPriority | add_call_lead_column.py:9-10 | a non-string cell and the 'N/A' cell are High without scoring |
| LeadPriority.ThresholdBoundaries | add_call_lead_column.py:83-88 | 9 is High, 8 is Medium, 5 is Medium and 4 is Low |
| LeadPriority.PluginCountAtMostNine | add_call_lead_column.py:43-48 | at most nine plugins can be found |
| LeadPriority.ScoreBounds | add_call_lead_column.py:26-80 | every score lies between -12 and 61 |
| LeadPriority.ScoreMaximumReached | add_call_lead_column.py:26-80 | a set of seventeen names reaches 61 |
| LeadPriority.ScoreMinimumReached | add_call_lead_column.py:55-80 | Shopify, React, Netlify and Google Analytics reach -12 |
| LeadPriority.AnyOfAdd | add_call_lead_column.py:28 | after one more name, a group is present exactly when it already was or the name belongs to it |
| LeadPriority.FlatGroupMember | add_call_lead_column.py:27-71 | a member of a flat group belongs to no other group and is none of the names tested on their own |
| LeadPriority.AddingCountedName | add_call_lead_column.py:26-80 | a name whose groups are all present already leaves the score unchanged |
| LeadPriority.FlatGroupCountsOnce | add_call_lead_column.py:27-71 | a second member of an ancient, builder, complex, jQuery, framework or hosting group adds nothing |
| LeadPriority.RuleIgnores | add_call_lead_column.py:26-80 | a rule that does not test a name gives the same points with or without it |
| LeadPriority.OnlyRuleChanges | add_call_lead_column.py:26-80 | when only one rule tests a new name, the score changes by that rule's change alone |
| LeadPriority.PluginBonus | add_call_lead_column.py:40-48 | a new plugin adds 2 when WordPress is present and nothing otherwise |
| LeadPriority.WordPressBonus | add_call_lead_column.py:40-48 | adding WordPress adds 5 plus 2 for each distinct plugin already present |
| LeadPriority.PluginsNeedWordPress | add_call_lead_column.py:40-48 | without WordPress, removing every plugin leaves the score unchanged |
| LeadPriority.PointsOutsidePlugins | add_call_lead_column.py:26-80 | no rule except the WordPress rule looks at the plugins |
| LeadPriority.MarketingBonus | add_call_lead_column.py:74-76 | the first marketing tool adds 3 exactly when no modern framework is present |
| LeadPriority.ModernFrameworkCancelsMarketing | add_call_lead_column.py:66-76 | the first modern framework takes 5, and another 3 when it cancels a marketing bonus |
| LeadPriority.AnalyticsRemovesBonus | add_call_lead_column.py:79-80 | the first analytics name removes the missing-analytics 3 |
| LeadPriority.ShopifyPenalty | add_call_lead_column.py:55-56 | adding Shopify takes 4 |
| LeadPriority.ModernHostingPenalty | add_call_lead_column.py:67-71 | the first Netlify or Vercel takes 3 |
| LeadPriority.EmptyScore | add_call_lead_column.py:79-80 | an empty set of names scores 3 |
| LeadPriority.TechNamesOfTwo | add_call_lead_column.py:15-22 | two plain names joined by ", " parse to exactly those two names |
| LeadPriority.TechNamesOfThree | add_call_lead_column.py:15-22 | three plain names joined by ", " parse to exactly those three names |
| LeadPriority.WordPressShopExample | add_call_lead_column.py:15-88 | "WordPress, WooCommerce, Elementor" scores 12 and is High |
| LeadPriority.ShopifyExample | add_call_lead_column.py:15-88 | "Shopify, Google Analytics" scores -4 and is Low |
| LeadPriority.ModernStackExample | add_call_lead_column.py:15-88 | "React, Vercel, Google Tag Manager" scores -8 and is Low |
| LeadPriority.EmptyStringExample | add_call_lead_column.py:9-22 | the empty string names nothing, is scored rather than treated as 'N/A', and is Low |
| LeadPriority.ListIsScored | add_call_lead_column.py:9-10 | a text holding a ',' is never the sentinel and is always scored |
| LeadPriority.PriorityIgnoresTokenOrder | add_call_lead_column.py:15-22 | swapping the two sides of a ',' keeps the label |
| LeadPriority.PriorityIgnoresDuplicates | add_call_lead_column.py:15-22 | listing the whole cell twice keeps the label |
| LeadPriority.PriorityDependsOnlyOnTokens | add_call_lead_column.py:9-88 | two cells other than 'N/A' whose ','-separated tokens are the same, in any order and with any repetition, get the same label |
| LeadPriority.PriorityIgnoresSpacing | add_call_lead_column.py:15-22 | whitespace around a token keeps the label |
| LeadPriority.PriorityIgnoresVersion | add_call_lead_column.py:15-22 | adding or changing a ':version' suffix keeps the label |
| LeadPriority.PriorityIgnoresEmptyName | add_call_lead_column.py:20-21 | a token with an empty name keeps the label |
| TechList.TokenName | add_call_lead_column.py:17-18 | a token's name holds no ':' and neither starts nor ends with whitespace |
| TechList.TokenVersion | add_call_lead_column.py:19 | a version holds no ':' |
| TechList.HasVersionIffColon | add_call_lead_column.py:17-19 | a token has a version exactly when it holds a ':' |
| TechList.TechNamesOfToken | add_call_lead_column.py:16-22 | a single token contributes exactly its name, or nothing when the name is empty |
| TechList.NameSetConcat | add_call_lead_column.py:16-22 | the names of two token lists together are the union of their names |
| TechList.NameSetSameTokens | add_call_lead_column.py:16-22 | the names depend only on which tokens occur |
| TechList.NameSetStep | add_call_lead_column.py:16-21 | one more token adds its name if it has one, and nothing else |
| TechList.TechNamesConcat | add_call_lead_column.py:16 | two texts joined by ',' name the union of their names |
| TechList.TechNamesReorder | add_call_lead_column.py:16-22 | order and repetition of the parts of a list do not change its names |
| TechList.TechNamesIgnoresEmptyName | add_call_lead_column.py:20-21 | a token with an empty name adds no name |
| TechList.TokenSurroundingSpace | add_call_lead_column.py:17-19 | whitespace around a token changes neither its name nor its version |
| TechList.TokenNameIgnoresVersion | add_call_lead_column.py:17-18 | a ':version' suffix does not change the name and makes the token versioned |
| TechList.TokenVersionOfPair | add_call_lead_column.py:17-19 | the version of 'name:version' is the stripped text after the ':' |
| TechList.TokenVersionIgnoresThirdField | add_call_lead_column.py:17-19 | text after a second ':' is not part of the version |
| TechList.TechNamesOfJoined | add_call_lead_column.py:15-22 | plain names joined by ", " parse back to exactly the set of those names |
| TechList.TechNamesLeadingSpace | add_call_lead_column.py:17-18 | whitespace in front of a list does not change its names |
| Text.Strip | add_call_lead_column.py:17-18 | the stripped text is no longer than the input and neither starts nor ends with whitespace |
| Text.StripKeeps | add_call_lead_column.py:17-18 | strip leaves nothing exactly when the text is all whitespace, and keeps every other character |
| Text.StripIdempotent | add_call_lead_column.py:17-18 | stripping twice is stripping once |
| Text.StripSurroundingSpace | add_call_lead_column.py:17-18 | whitespace around a text is removed by strip |
| Text.Split | add_call_lead_column.py:16 | split gives at least one piece and no piece holds the separator; it gives one piece exactly when the separator is absent |
| Text.JoinSplit | add_call_lead_column.py:16 | joining the pieces of a split with the separator gives back the text |
| Text.SplitConcat | add_call_lead_column.py:16 | splitting at one separator splits the two sides independently |
| Text.ContainsIffOccurs | analyze_websites.py:40 | `sub in s` holds exactly when `sub` occurs at some position of `s` |
| Text.LexLessTotal | analyze_websites.py:33 | any two different strings are ordered one way or the other |
| Text.LexLessTransitive | analyze_websites.py:33 | the string order is transitive |
| Text.SortedStrings | analyze_websites.py:33 | `sorted` of a set holds each element exactly once, in strictly increasing order |
| WebsiteAnalysis.InvalidUrlIffBlank | analyze_websites.py:12-13 | a URL is rejected exactly when it is not a string or is all whitespace |
| WebsiteAnalysis.NormalizeUrl | analyze_websites.py:17-18 | the requested URL starts with 'http://' or 'https://'; a URL that already did is unchanged, any other gets 'https://' in front |
| WebsiteAnalysis.NormalizeUrlIdempotent | analyze_websites.py:17-18 | prefixing twice is prefixing once, and the URL is always the tail of the requested one |
| WebsiteAnalysis.RenderIsSentinel | analyze_websites.py:33 | the rendering is 'N/A' exactly when nothing was detected or the only name detected is 'N/A' |
| WebsiteAnalysis.RenderRoundTrip | analyze_websites.py:33 | the scorer's parser reads a rendered non-empty detection of plain names back as exactly those names |
| WebsiteAnalysis.RenderSorted | analyze_websites.py:33 | a non-empty detection is rendered as its names in increasing order joined by ", " |
| WebsiteAnalysis.ClientErrorStatus | analyze_websites.py:36-42 | a 403 status gives the Forbidden text even when the message mentions Timeout; otherwise a message mentioning Timeout gives the timeout text; otherwise 'Error: ' and the type name |
| WebsiteAnalysis.ClientErrorStatusDistinct | analyze_websites.py:36-42 | for a real type name, the status is the Forbidden text exactly for a 403 and the timeout text exactly for a non-403 'Timeout' message |
| WebsiteAnalysis.ClientErrorStatusPrefix | analyze_websites.py:37-41 | every client-error status starts with 'Error: ' |
| WebsiteAnalysis.AnalyzeWebsite | analyze_websites.py:7-45 | an invalid URL gives ('N/A', 'Missing or invalid URL'); a failing fingerprint load escapes as an exception; otherwise a detection gives (the rendered names, 'Success'), a client error gives ('N/A', its client-error status), and any other error gives ('N/A', 'An unexpected error occurred: ' + the exception's type name); every returned row that is not 'Success' carries 'N/A' |
| WebsiteAnalysis.AnalyzeWebsiteRequestsNormalizedUrl | analyze_websites.py:12-31 | only the prefixed URL is requested, and an invalid URL is answered without any request |
| WebsiteAnalysis.AnalyzeWebsiteSuccess | analyze_websites.py:26-34 | a successful non-empty detection is returned with 'Success', and the scorer reads back the detected names |
| WebsiteAnalysis.AnalyzeWebsiteSuccessOnlyOnDetection | analyze_websites.py:12-45 | a row reads 'Success' only when the URL was valid, the fingerprints loaded and the request ended in a detection |
| WebsiteAnalysis.FinalRow | analyze_websites.py:72-76 | an exception becomes ('N/A', 'Error: ' + message), and a returned tuple is kept as it is |
| WebsiteAnalysis.AggregateResults | analyze_websites.py:71-79 | both columns have one entry per gathered result, in order, and entry i is the final row of result i |
| WebsiteAnalysis.FailedRowsAreHighPriority | analyze_websites.py:12-45 | every row not marked 'Success' carries 'N/A' and is labelled High by the scorer |
| WebsiteAnalysis.FailedColumnRowsAreHighPriority | analyze_websites.py:71-79 | in the written columns, every row not marked 'Success', and every successful row that detected nothing, is labelled High |
| TechInventory.TokensOfCells | inspect_file.py:22-24 | a token lies in the column exactly when it lies in one of its cells |
| TechInventory.TokensConcat | inspect_file.py:22-24 | the tokens of two stretches of cells are the tokens of the first followed by those of the second |
| TechInventory.NonTextCellIgnored | inspect_file.py:22-23 | a cell that is not a string contributes nothing wherever it stands |
| TechInventory.VersionedNamesConcat | inspect_file.py:29-33 | the versioned names of two stretches of tokens are the union of theirs |
| TechInventory.VersionsConcat | inspect_file.py:29-33 | versions accumulate: over two stretches of tokens they are the union of each stretch's versions |
| TechInventory.VersionedNamesAreNames | inspect_file.py:27-33 | every key of `tech_with_versions` is among the names |
| TechInventory.VersionedIffColon | inspect_file.py:25-33 | a name is a key exactly when one of its tokens holds a ':' |
| TechInventory.VersionedIffVersions | inspect_file.py:29-33 | a name is a key exactly when it has at least one version |
| TechInventory.InventorySameTokens | inspect_file.py:22-33 | the names, keys and versions depend only on which tokens occur |
| TechInventory.InventoryIgnoresCellOrder | inspect_file.py:22-33 | the names, keys and versions do not depend on the order or repetition of the cells |
| TechInventory.VersionsOfOne | inspect_file.py:29-33 | one versioned token gives its own name exactly its version |
| TechInventory.BareName | inspect_file.py:25-26 | a plain name read as a token is itself |
| TechInventory.ThreeFieldTokenName | inspect_file.py:25-26 | "jQuery:1.0:beta" has the name "jQuery" |
| TechInventory.ThreeFieldTokenVersion | inspect_file.py:25-30 | "jQuery:1.0:beta" has the version "1.0" |
| TechInventory.ThirdFieldDropped | inspect_file.py:29-33 | "jQuery:1.0:beta" records only the version "1.0" |
| TechInventory.EmptyVersionToken | inspect_file.py:25-30 | "jQuery:" has the name "jQuery" and the empty version |
| TechInventory.EmptyVersionRecorded | inspect_file.py:29-33 | "jQuery:" records the empty version |
| TechInventory.AddNameStep | inspect_file.py:26-28 | one more token adds exactly its name, if it has one |
| TechInventory.AddVersionKeysStep | inspect_file.py:29-32 | one more token makes its name a key exactly when it has a name and a version |
| TechInventory.AddVersionOwnName | inspect_file.py:29-33 | the token's own name gets the union of its earlier versions and the new one |
| TechInventory.AddVersionOtherNames | inspect_file.py:29-33 | every other key keeps its versions |
| TechInventory.AddTokenKeepsInventory | inspect_file.py:24-33 | one token's update keeps the set and the map equal to the inventory of the tokens seen |
| TechInventory.CollectTechnologies | inspect_file.py:18-33 | after the loops, the set is every name of the column, the keys are the versioned names, and each key maps to all of its versions |
| TechInventory.CollectCell | inspect_file.py:23-33 | the inner loop extends the inventory by the tokens of one string cell |
| TechInventory.CollectToken | inspect_file.py:25-33 | the loop body adds the token's name, and its version when it has both |
| TechInventory.AbbreviateShape | inspect_file.py:40-44 | at most four versions are shown; four exactly when there are more than three, the last then being '...'; the first three are kept in order |
| TechInventory.SummaryShape | inspect_file.py:37-47 | the summary lists each name exactly once, in increasing order; an entry shows versions exactly when the name has some, and never more than four |
| TechInventory.SummarizeOne | inspect_file.py:39-47 | one entry is the name alone, or the name with its abbreviated sorted versions |
| TechInventory.Summarize | inspect_file.py:35-47 | the printed count is the number of distinct names, and the entries are the summary of the names in sorted order |

## Left out

- The HTTP request (aiohttp session, headers, `raise_for_status`, the 20-second
  timeout and the 0.1-second sleep): network I/O. Its outcome is the `fetch`
  parameter of `WebsiteAnalysis.AnalyzeWebsite`.
- The Wappalyzer fingerprinting and `Wappalyzer.latest()`: a foreign library.
  The detection is an opaque set of names. Loading the fingerprints is the
  `Setup` parameter: it runs outside the `try`, so a failure there escapes the
  coroutine.
- `asyncio.Semaphore` and `asyncio.gather`: concurrency. Only the result list,
  one entry per URL in the URLs' order, is modelled.
- Exceptions that are not `Exception` subclasses (such as a cancellation)
  would escape `gather` and end the run; they are not modelled.
- Reading and writing the Excel file with pandas, `argparse`, the `main`
  functions and every `print`: file and console I/O. Only the content and
  order of the inventory summary are modelled.
- run_pipeline.py and create_test_file.py are not part of this model:
  subprocess orchestration and fixture writing.
- The versions stored in `techDetails` by `should_call_lead` are kept in the
  model's loop but no rule reads them, so no property is stated about them.
- A detection in which no name was found renders as 'N/A' with the status
  'Success', so the scorer labels that row High. The code behaves this way and
  so does the model.
- Only the exact text 'N/A' is the sentinel. " N/A" and "N/A,N/A" are parsed
  and scored (each names the technology 'N/A').
- The code tests the 403 status before the 'Timeout' text. An error with both
  is therefore reported as Forbidden, and the model follows that order.
- LeadPriority.ModernFrameworkCancelsMarketing, LeadPriority.MarketingBonus,
  LeadPriority.AnalyticsRemovesBonus and LeadPriority.ModernHostingPenalty
  state the change for the first name of a group to appear. A further name of
  the same group adds nothing. LeadPriority.AddingCountedName states this for
  every group, and LeadPriority.FlatGroupCountsOnce restates it for the flat
  groups.
- TechInventory.SummaryShape states the order and membership of the names.
  The exact versions shown are stated through TechInventory.AbbreviateShape
  and Text.SortedStrings.
- LeadPriority.PriorityIgnoresSpacing and LeadPriority.PriorityIgnoresVersion
  are stated for a cell holding a single token. For a longer list,
  TechList.TechNamesConcat splits the list at a ',', and
  TechList.TokenSurroundingSpace and TechList.TokenNameIgnoresVersion state the
  same facts for a token anywhere in the list. The lemmas require that neither
  cell is exactly 'N/A', because that text is the sentinel and is never parsed.
