/** Provider text of `tools/curator-embed/seed_topic.py`. The alias tables and the case folding are
    parameters: nothing here depends on their contents. */
module SeedTopic {
  import opened Base
  import opened Sequences
  import opened Sorting
  import opened Utf8

  const MAX_TEXT_BYTES: nat := 8192

  /** `ALIASES` in its order, `CONTEXT_KEYWORDS`, and `str.casefold`. */
  datatype Vocabulary = Vocabulary(topics: seq<Topic>, context: seq<string>, fold: string -> string)

  datatype Topic = Topic(name: string, aliases: seq<string>)

  datatype Row = Row(keywords: seq<string>, genres: seq<string>, overview: string)

  // ---------- strip and summary ----------

  function StripLeft(s: string, isSpace: char -> bool): string {
    if s != [] && isSpace(s[0]) then StripLeft(s[1..], isSpace) else s
  }

  function StripRight(s: string, isSpace: char -> bool): string {
    if s != [] && isSpace(s[|s| - 1]) then StripRight(s[..|s| - 1], isSpace) else s
  }

  function Strip(s: string, isSpace: char -> bool): string {
    StripRight(StripLeft(s, isSpace), isSpace)
  }

  function SummaryText(overview: string, isSpace: char -> bool): Option<string> {
    var stripped := Strip(overview, isSpace);
    if stripped != [] then Some(Utf8Prefix(stripped, MAX_TEXT_BYTES)) else None
  }

  lemma {:induction false} StripLeftStarts(s: string, isSpace: char -> bool)
    ensures var r := StripLeft(s, isSpace);
      (r == [] <==> forall i :: 0 <= i < |s| ==> isSpace(s[i])) && (r != [] ==> !isSpace(r[0]))
  {
    if s != [] && isSpace(s[0]) {
      StripLeftStarts(s[1..], isSpace);
      if StripLeft(s, isSpace) == [] {
        forall i | 0 <= i < |s| ensures isSpace(s[i]) {
          assert i > 0 ==> s[i] == s[1..][i - 1];
        }
      }
    }
  }

  lemma {:induction false} StripRightKeepsStart(s: string, isSpace: char -> bool)
    requires s != [] && !isSpace(s[0])
    ensures var r := StripRight(s, isSpace); r != [] && r[0] == s[0] && r <= s
  {
    if isSpace(s[|s| - 1]) {
      StripRightKeepsStart(s[..|s| - 1], isSpace);
    }
  }

  /** A summary exists exactly for an overview that is not blank, and then it is a non-empty
      prefix of the stripped overview within the byte cap. */
  lemma SummaryFits(overview: string, isSpace: char -> bool)
    ensures SummaryText(overview, isSpace).None? <==> forall i :: 0 <= i < |overview| ==> isSpace(overview[i])
    ensures match SummaryText(overview, isSpace)
      case None => true
      case Some(text) => text != [] && text <= Strip(overview, isSpace) && |Encode(text)| <= MAX_TEXT_BYTES
  {
    var left := StripLeft(overview, isSpace);
    StripLeftStarts(overview, isSpace);
    if left != [] {
      StripRightKeepsStart(left, isSpace);
      var stripped := Strip(overview, isSpace);
      PrefixIsLongestFitting(stripped, MAX_TEXT_BYTES);
      FittingIsLongest(stripped, MAX_TEXT_BYTES);
    }
  }

  // ---------- keyword selection ----------

  /** `{keyword.casefold(): keyword for keyword in keywords}`: the last of equal keys wins. */
  function ByName(keywords: seq<string>, fold: string -> string): map<string, string> {
    if keywords == [] then map[]
    else
      var last := keywords[|keywords| - 1];
      ByName(keywords[..|keywords| - 1], fold)[fold(last) := last]
  }

  /** The keywords the aliases name, in the order of the aliases. */
  function Matches(aliases: seq<string>, byName: map<string, string>): seq<string> {
    if aliases == [] then []
    else
      var last := aliases[|aliases| - 1];
      Matches(aliases[..|aliases| - 1], byName) + (if last in byName then [byName[last]] else [])
  }

  /** All aliases in order: the chosen topic first, then the other topics, then the context. */
  function OrderedAliases(v: Vocabulary, topic: string): seq<string> {
    AliasesOf(v.topics, topic, true) + AliasesOf(v.topics, topic, false) + v.context
  }

  function AliasesOf(topics: seq<Topic>, topic: string, chosen: bool): seq<string> {
    if topics == [] then []
    else AliasesOf(topics[..|topics| - 1], topic, chosen) +
         (if (topics[|topics| - 1].name == topic) == chosen then topics[|topics| - 1].aliases else [])
  }

  function Lacking(from: seq<string>, kept: seq<string>): seq<string> {
    if from == [] then []
    else Lacking(from[..|from| - 1], kept) +
         (if from[|from| - 1] in kept then [] else [from[|from| - 1]])
  }

  function FoldOrder(fold: string -> string): Less<string> {
    (a: string, b: string) => CodeLess(fold(a), fold(b))
  }

  /** All keywords, the matched ones first. */
  function Kept(v: Vocabulary, row: Row, topic: string): seq<string> {
    var keywords := Unique(row.keywords);
    var kept := Unique(Matches(OrderedAliases(v, topic), ByName(keywords, v.fold)));
    kept + Lacking(StableSort(FoldOrder(v.fold), keywords), kept)
  }

  function Selection(v: Vocabulary, row: Row, topic: string): seq<string> {
    var kept := Kept(v, row, topic);
    kept[..Min(16, |kept|)]
  }

  /** `selected_keywords`. */
  method SelectedKeywords(v: Vocabulary, row: Row, topic: string) returns (selected: seq<string>)
    ensures selected == Selection(v, row, topic)
  {
    hide Matches, StableSort, Lacking, Unique;
    var keywords := Unique(row.keywords);
    var byName := ByName(keywords, v.fold);
    var byTopic := AliasesOf(v.topics, topic, true) + AliasesOf(v.topics, topic, false);
    var priority := Matches(byTopic, byName);
    priority := priority + Matches(v.context, byName);
    MatchesConcat(byTopic, v.context, byName);
    var kept := Unique(priority);
    kept := kept + Lacking(StableSort(FoldOrder(v.fold), keywords), kept);
    selected := kept[..Min(16, |kept|)];
  }

  lemma {:induction false} ByNameHolds(keywords: seq<string>, fold: string -> string)
    ensures forall key :: key in ByName(keywords, fold) ==> ByName(keywords, fold)[key] in keywords
    ensures forall k :: k in keywords ==> fold(k) in ByName(keywords, fold)
  {
    if keywords != [] {
      ByNameHolds(keywords[..|keywords| - 1], fold);
      assert keywords == keywords[..|keywords| - 1] + [keywords[|keywords| - 1]];
    }
  }

  lemma {:induction false} MatchesMembers(aliases: seq<string>, byName: map<string, string>)
    ensures forall k :: k in Matches(aliases, byName) <==> exists a :: a in aliases && a in byName && byName[a] == k
    ensures |Matches(aliases, byName)| <= |aliases|
  {
    if aliases != [] {
      MatchesMembers(aliases[..|aliases| - 1], byName);
      assert aliases == aliases[..|aliases| - 1] + [aliases[|aliases| - 1]];
    }
  }

  lemma {:induction false} LackingMembers(from: seq<string>, kept: seq<string>)
    ensures forall k :: k in Lacking(from, kept) <==> k in from && k !in kept
    ensures NoDup(from) ==> NoDup(Lacking(from, kept))
  {
    if from != [] {
      LackingMembers(from[..|from| - 1], kept);
      assert from == from[..|from| - 1] + [from[|from| - 1]];
    }
  }

  lemma SortKeepsDistinct(less: Less<string>, s: seq<string>)
    requires NoDup(s)
    ensures NoDup(StableSort(less, s)) && (forall k :: k in StableSort(less, s) <==> k in s)
  {
    DistinctByCount(s);
    DistinctByCount(StableSort(less, s));
    assert forall k :: k in s <==> k in multiset(s);
    assert forall k :: k in StableSort(less, s) <==> k in multiset(StableSort(less, s));
  }

  /** The selection is made of the row's own keywords, each at most once, as many as fit 16. */
  lemma SelectionIsBounded(v: Vocabulary, row: Row, topic: string)
    ensures var s := Selection(v, row, topic);
      NoDup(s) && (forall k :: k in s ==> k in row.keywords) && |s| == Min(16, |Elements(row.keywords)|)
  {
    hide Unique, Matches, OrderedAliases, ByName, StableSort, Lacking, NoDup, Subseq, Elements, FoldOrder;
    var keywords := Unique(row.keywords);
    UniqueIsASet(row.keywords);
    var byName := ByName(keywords, v.fold);
    ByNameHolds(keywords, v.fold);
    var matches := Matches(OrderedAliases(v, topic), byName);
    MatchesMembers(OrderedAliases(v, topic), byName);
    UniqueIsASet(matches);
    var kept := Unique(matches);
    SameElements(kept, matches);
    SameElements(keywords, row.keywords);
    SortKeepsDistinct(FoldOrder(v.fold), keywords);
    var sorted := StableSort(FoldOrder(v.fold), keywords);
    LackingMembers(sorted, kept);
    NoDupConcat(kept, Lacking(sorted, kept));
    KeptHoldsAll(row.keywords, keywords, matches, kept, sorted);
    PrefixOfDistinct(Kept(v, row, topic), Selection(v, row, topic));
  }

  lemma PrefixOfDistinct(all: seq<string>, prefix: seq<string>)
    requires NoDup(all) && prefix <= all
    ensures NoDup(prefix) && forall k :: k in prefix ==> k in all
  {
    forall i, j | 0 <= i < j < |prefix| ensures prefix[i] != prefix[j] {
      assert prefix[i] == all[i] && prefix[j] == all[j];
    }
    forall i | 0 <= i < |prefix| ensures prefix[i] in all {
      assert prefix[i] == all[i];
    }
  }

  lemma SameElements(a: seq<string>, b: seq<string>)
    requires Elements(a) == Elements(b)
    ensures forall k :: k in a <==> k in b
  {
    assert forall k :: k in a <==> k in Elements(a);
    assert forall k :: k in b <==> k in Elements(b);
  }

  lemma KeptHoldsAll(given: seq<string>, keywords: seq<string>, matches: seq<string>, kept: seq<string>, sorted: seq<string>)
    requires Elements(keywords) == Elements(given) && Elements(kept) == Elements(matches)
    requires (forall k :: k in matches ==> k in keywords) && (forall k :: k in sorted <==> k in keywords)
    requires NoDup(kept + Lacking(sorted, kept))
    ensures var all := kept + Lacking(sorted, kept);
      Elements(all) == Elements(given) && |all| == |Elements(given)| && forall k :: k in all ==> k in given
  {
    var all := kept + Lacking(sorted, kept);
    LackingMembers(sorted, kept);
    forall k ensures k in all <==> k in given {
      assert k in keywords <==> k in Elements(keywords);
      assert k in kept <==> k in Elements(kept);
    }
    assert Elements(all) == Elements(given);
    NoDupSize(all);
  }

  /** Keywords of the chosen topic are never crowded out: if the topic has at most 16 aliases,
      every keyword one of them names is selected. */
  lemma TopicKeywordsSurvive(v: Vocabulary, row: Row, topic: string, alias: string)
    requires var mine := AliasesOf(v.topics, topic, true);
      |mine| <= 16 && alias in mine && alias in ByName(Unique(row.keywords), v.fold)
    ensures ByName(Unique(row.keywords), v.fold)[alias] in Selection(v, row, topic)
  {
    hide Unique, Matches, ByName, StableSort, AliasesOf, Lacking, NoDup, Subseq, Elements, FoldOrder;
    var mine := AliasesOf(v.topics, topic, true);
    var others := AliasesOf(v.topics, topic, false) + v.context;
    var byName := ByName(Unique(row.keywords), v.fold);
    assert OrderedAliases(v, topic) == mine + others;
    MatchesConcat(mine, others, byName);
    var first := Matches(mine, byName);
    FirstMatches(mine, byName, alias);
    UniqueGrows(first, Matches(others, byName));
    var kept := Kept(v, row, topic);
    assert Unique(first) <= kept;
    InPrefix(Unique(first), kept, 16, byName[alias]);
  }

  lemma FirstMatches(aliases: seq<string>, byName: map<string, string>, alias: string)
    requires alias in aliases && alias in byName
    ensures |Unique(Matches(aliases, byName))| <= |aliases| && byName[alias] in Unique(Matches(aliases, byName))
  {
    var first := Matches(aliases, byName);
    hide Matches, Unique, NoDup, Subseq, Elements;
    MatchesMembers(aliases, byName);
    UniqueIsASet(first);
    SubseqMembers(Unique(first), first);
    SameElements(Unique(first), first);
  }

  lemma InPrefix(prefix: seq<string>, all: seq<string>, limit: nat, x: string)
    requires prefix <= all && |prefix| <= limit && x in prefix
    ensures x in all[..Min(limit, |all|)]
  {
    var i :| 0 <= i < |prefix| && prefix[i] == x;
    assert all[..Min(limit, |all|)][i] == x;
  }

  lemma {:induction false} MatchesConcat(a: seq<string>, b: seq<string>, byName: map<string, string>)
    ensures Matches(a + b, byName) == Matches(a, byName) + Matches(b, byName)
    decreases |b|
  {
    if b == [] {
      assert a + b == a;
    } else {
      MatchesConcat(a, b[..|b| - 1], byName);
      assert (a + b)[..|a + b| - 1] == a + b[..|b| - 1];
    }
  }

  // ---------- provider text ----------

  function Prefixes(parts: seq<string>, limit: nat): seq<string> {
    if parts == [] then [] else [Utf8Prefix(parts[0], limit)] + Prefixes(parts[1..], limit)
  }

  function Joined(parts: seq<string>): string {
    if parts == [] then ""
    else if |parts| == 1 then parts[0]
    else parts[0] + ", " + Joined(parts[1..])
  }

  function Preamble(keywords: seq<string>, genres: seq<string>): string {
    "Keywords: " + Joined(keywords) + ". Genres: " + Joined(genres) + ". Synopsis: "
  }

  /** `provider_text`; None stands for its assertion failing. */
  method ProviderText(v: Vocabulary, row: Row, topic: string) returns (text: Option<string>)
    ensures text == TextOf(Selection(v, row, topic), row) && text.Some?
  {
    hide TextOf, Selection;
    ProviderTextFits(v, row, topic);
    var selected := SelectedKeywords(v, row, topic);
    text := TextOf(selected, row);
  }

  function PreambleOf(selected: seq<string>, row: Row): string {
    Preamble(Prefixes(selected, 128), Prefixes(row.genres[..Min(16, |row.genres|)], 64))
  }

  function TextOf(selected: seq<string>, row: Row): Option<string> {
    var preamble := PreambleOf(selected, row);
    if |Encode(preamble)| >= MAX_TEXT_BYTES then None
    else Some(preamble + Utf8Prefix(row.overview, MAX_TEXT_BYTES - |Encode(preamble)|))
  }

  lemma {:induction false} JoinedLength(parts: seq<string>, limit: nat)
    ensures |Encode(Joined(Prefixes(parts, limit)))| <= |parts| * (limit + 2)
  {
    if parts != [] {
      var first, rest := Utf8Prefix(parts[0], limit), Prefixes(parts[1..], limit);
      PrefixIsLongestFitting(parts[0], limit);
      FittingIsLongest(parts[0], limit);
      JoinedLength(parts[1..], limit);
      assert Prefixes(parts, limit)[1..] == rest;
      EncodeConcat(first + ", ", Joined(rest));
      EncodeConcat(first, ", ");
      AsciiLength(", ");
      assert |parts| * (limit + 2) == (|parts| - 1) * (limit + 2) + (limit + 2);
    }
  }

  lemma {:induction false} AsciiLength(s: string)
    requires forall i :: 0 <= i < |s| ==> s[i] < 128 as char
    ensures |Encode(s)| == |s|
  {
    if s != [] {
      AsciiLength(s[1..]);
    }
  }

  lemma LabelLengths()
    ensures |Encode("Keywords: ")| == 10 && |Encode(". Genres: ")| == 10 && |Encode(". Synopsis: ")| == 12
  {
    hide Encode;
    AsciiLength("Keywords: ");
    AsciiLength(". Genres: ");
    AsciiLength(". Synopsis: ");
  }

  lemma PreambleFits(keywords: seq<string>, genres: seq<string>)
    requires |keywords| <= 16 && |genres| <= 16
    ensures |Encode(Preamble(Prefixes(keywords, 128), Prefixes(genres, 64)))| <= 3168
  {
    hide Encode, Joined, Prefixes;
    JoinedLength(keywords, 128);
    JoinedLength(genres, 64);
    LabelLengths();
    ConcatOfFive("Keywords: ", Joined(Prefixes(keywords, 128)), ". Genres: ", Joined(Prefixes(genres, 64)), ". Synopsis: ");
  }

  lemma ConcatOfFive(a: string, b: string, c: string, d: string, e: string)
    ensures |Encode(a + b + c + d + e)| == |Encode(a)| + |Encode(b)| + |Encode(c)| + |Encode(d)| + |Encode(e)|
  {
    hide Encode;
    EncodeConcat(a, b);
    EncodeConcat(a + b, c);
    EncodeConcat(a + b + c, d);
    EncodeConcat(a + b + c + d, e);
  }

  /** `cut` is `preamble` and the longest prefix of `overview` that still fits behind it. */
  ghost predicate CutAtCap(preamble: string, cut: string, overview: string) {
    exists k: nat ::
      k <= |overview| && cut == preamble + overview[..k] && NothingLongerFits(preamble, overview, k)
  }

  ghost predicate NothingLongerFits(preamble: string, overview: string, k: nat) {
    forall j :: k < j <= |overview| ==> |Encode(preamble + overview[..j])| > MAX_TEXT_BYTES
  }

  lemma CutFits(preamble: string, overview: string)
    requires |Encode(preamble)| < MAX_TEXT_BYTES
    ensures var cut := preamble + Utf8Prefix(overview, MAX_TEXT_BYTES - |Encode(preamble)|);
      |Encode(cut)| <= MAX_TEXT_BYTES && CutAtCap(preamble, cut, overview)
  {
    hide Encode, Fitting, Utf8Prefix;
    var left := MAX_TEXT_BYTES - |Encode(preamble)|;
    PrefixIsLongestFitting(overview, left);
    FittingIsLongest(overview, left);
    var k := Fitting(overview, left);
    EncodeConcat(preamble, overview[..k]);
    forall j | k < j <= |overview| ensures |Encode(preamble + overview[..j])| > MAX_TEXT_BYTES {
      EncodeConcat(preamble, overview[..j]);
    }
    assert NothingLongerFits(preamble, overview, k);
  }

  /** For every row, topic and vocabulary the assertion holds, the text fits the cap, and the
      synopsis is the longest prefix of the overview that still does. */
  lemma ProviderTextFits(v: Vocabulary, row: Row, topic: string)
    ensures var text := TextOf(Selection(v, row, topic), row);
      text.Some? && |Encode(text.value)| <= MAX_TEXT_BYTES && CutAtCap(PreambleOf(Selection(v, row, topic), row), text.value, row.overview)
  {
    hide Preamble, Selection, Encode, Prefixes, Utf8Prefix, CutAtCap, Elements, NoDup;
    var selected := Selection(v, row, topic);
    var genres := row.genres[..Min(16, |row.genres|)];
    assert |selected| <= 16 by {
      SelectionIsBounded(v, row, topic);
    }
    PreambleFits(selected, genres);
    CutFits(Preamble(Prefixes(selected, 128), Prefixes(genres, 64)), row.overview);
  }
}
