/** Search planning of `internal/domain/wantable.go`. `lower` is `strings.ToLower`; strings are
    ordered by code points, as Go orders them by bytes. */
module SearchPlan {
  import opened Base
  import opened Sequences
  import opened Sorting
  import opened Text
  import opened Wantable

  datatype Kind = KindMovie | KindSeries | KindBook

  datatype ExternalRef = ExternalRef(provider: string, value: string)

  datatype SearchQuery = SearchQuery(
    q: string, season: int, episode: int, seasonSet: bool, episodeSet: bool,
    id: Option<ExternalRef>, kind: Kind, bookType: string)

  datatype Plan = Plan(ids: seq<SearchQuery>, titles: seq<SearchQuery>)

  const NO_QUERY := SearchQuery("", 0, 0, false, false, None, KindMovie, "")

  // ---------- rendering ----------

  /** The identity, or the wantable's own title and year where it has no title. */
  function Effective(w: Wantable): MediaIdentity
    requires !w.Book?
  {
    if w.identity.title == "" then w.identity.(title := w.title, year := w.year) else w.identity
  }

  function MovieText(title: string, year: int): string {
    if year > 0 then title + " " + Decimal(year) else title
  }

  /** The query text for one title of the work. */
  function Rendered(w: Wantable, title: string): string
    requires !w.Book?
  {
    match w
    case Movie(_, _, _, _, _) => MovieText(title, Effective(w).year)
    case Episode(_, _, _, _, season, episode, _) => title + " S" + TwoDigits(season) + "E" + TwoDigits(episode)
    case Season(_, _, _, _, season, _) => title + " S" + TwoDigits(season)
  }

  function Canonical(w: Wantable): SearchQuery
    requires !w.Book?
  {
    var q := Rendered(w, Effective(w).title);
    match w
    case Movie(_, _, _, _, _) => NO_QUERY.(q := q, kind := KindMovie)
    case Episode(_, _, _, _, season, episode, _) =>
      SearchQuery(q, season, episode, true, true, None, KindSeries, "")
    case Season(_, _, _, _, season, _) => SearchQuery(q, season, 0, true, false, None, KindSeries, "")
  }

  // ---------- aliases ----------

  function Priority(a: Alias): nat {
    if a.role == "manual" || a.source == "manual" then 0 else if a.role == "original" then 1 else 2
  }

  function AliasLess(lower: string -> string): Less<Alias> {
    (a: Alias, b: Alias) =>
      if Priority(a) != Priority(b) then Priority(a) < Priority(b) else CodeLess(lower(a.title), lower(b.title))
  }

  predicate Eligible(a: Alias) {
    a.searchable && a.scope == "work" && a.title != ""
  }

  function EligibleOf(aliases: seq<Alias>): seq<Alias> {
    if aliases == [] then []
    else EligibleOf(aliases[..|aliases| - 1]) + (if Eligible(aliases[|aliases| - 1]) then [aliases[|aliases| - 1]] else [])
  }

  function RenderedAll(w: Wantable, aliases: seq<Alias>): seq<string>
    requires !w.Book?
  {
    if aliases == [] then [] else RenderedAll(w, aliases[..|aliases| - 1]) + [Rendered(w, aliases[|aliases| - 1].title)]
  }

  /** The eligible aliases in order of preference. */
  function Preferred(w: Wantable, lower: string -> string): seq<Alias>
    requires !w.Book?
  {
    EligibleOf(StableSort(AliasLess(lower), w.identity.aliases))
  }

  /** The query texts of the titles: the canonical one, then those of the aliases, each once. */
  function TitleTexts(w: Wantable, lower: string -> string): seq<string>
    requires !w.Book?
  {
    Unique([Canonical(w).q] + RenderedAll(w, Preferred(w, lower)))
  }

  function WithTexts(canonical: SearchQuery, texts: seq<string>): seq<SearchQuery> {
    if texts == [] then [] else WithTexts(canonical, texts[..|texts| - 1]) + [canonical.(q := texts[|texts| - 1])]
  }

  // ---------- ids ----------

  predicate Usable(value: string) {
    value != "" && value != "0"
  }

  function RefsOf(w: Wantable): seq<ExternalRef>
    requires !w.Book?
  {
    var ids := w.identity.ids;
    (if !w.Movie? && ids.tvdb > 0 then [ExternalRef("tvdb", Decimal(ids.tvdb))] else []) +
    (if Usable(ids.imdb) then [ExternalRef("imdb", ids.imdb)] else []) +
    (if ids.tmdb > 0 then [ExternalRef("tmdb", Decimal(ids.tmdb))] else [])
  }

  function WithRefs(canonical: SearchQuery, refs: seq<ExternalRef>): seq<SearchQuery> {
    if refs == [] then []
    else WithRefs(canonical, refs[..|refs| - 1]) + [canonical.(q := "", id := Some(refs[|refs| - 1]))]
  }

  /** `appendID`. */
  function AppendID(queries: seq<SearchQuery>, canonical: SearchQuery, provider: string, value: string): seq<SearchQuery> {
    if Usable(value) then queries + [canonical.(q := "", id := Some(ExternalRef(provider, value)))] else queries
  }

  lemma WithRefsSnoc(canonical: SearchQuery, refs: seq<ExternalRef>, r: ExternalRef)
    ensures WithRefs(canonical, refs + [r]) == WithRefs(canonical, refs) + [canonical.(q := "", id := Some(r))]
  {
    assert (refs + [r])[..|refs|] == refs;
  }

  lemma WithTextsSnoc(canonical: SearchQuery, texts: seq<string>, t: string)
    ensures WithTexts(canonical, texts + [t]) == WithTexts(canonical, texts) + [canonical.(q := t)]
  {
    assert (texts + [t])[..|texts|] == texts;
  }

  lemma PositiveIsUsable(n: int)
    requires n > 0
    ensures Usable(Decimal(n))
  {
  }

  // ---------- the planner ----------

  /** The identifiers' part of `PlanVideoSearch`. */
  method PlanIDs(w: Wantable) returns (queries: seq<SearchQuery>)
    requires !w.Book?
    ensures queries == WithRefs(Canonical(w), RefsOf(w))
  {
    hide Decimal, WithRefs, Canonical;
    var canonical, ids := Canonical(w), w.identity.ids;
    ghost var refs: seq<ExternalRef> := [];
    queries := [];
    NoRefs(canonical);
    if !w.Movie? {
      if ids.tvdb > 0 {
        PositiveIsUsable(ids.tvdb);
        WithRefsSnoc(canonical, refs, ExternalRef("tvdb", Decimal(ids.tvdb)));
        queries, refs := AppendID(queries, canonical, "tvdb", Decimal(ids.tvdb)), refs + [ExternalRef("tvdb", Decimal(ids.tvdb))];
      }
    }
    if Usable(ids.imdb) {
      WithRefsSnoc(canonical, refs, ExternalRef("imdb", ids.imdb));
      refs := refs + [ExternalRef("imdb", ids.imdb)];
    }
    queries := AppendID(queries, canonical, "imdb", ids.imdb);
    if ids.tmdb > 0 {
      PositiveIsUsable(ids.tmdb);
      WithRefsSnoc(canonical, refs, ExternalRef("tmdb", Decimal(ids.tmdb)));
      queries, refs := AppendID(queries, canonical, "tmdb", Decimal(ids.tmdb)), refs + [ExternalRef("tmdb", Decimal(ids.tmdb))];
    }
    assert refs == RefsOf(w);
  }

  lemma NoRefs(canonical: SearchQuery)
    ensures WithRefs(canonical, []) == []
  {
  }

  /** `PlanVideoSearch`; a book has no video plan. */
  method PlanVideoSearch(w: Wantable, lower: string -> string) returns (plan: Plan)
    ensures w.Book? ==> plan == Plan([], [])
    ensures !w.Book? ==> plan.ids == WithRefs(Canonical(w), RefsOf(w))
    ensures !w.Book? ==> plan.titles == WithTexts(Canonical(w), TitleTexts(w, lower))
  {
    hide Canonical, Rendered, Effective, StableSort, Unique, WithTexts, WithRefs, RefsOf, EligibleOf, RenderedAll;
    if w.Book? {
      return Plan([], []);
    }
    var canonical := Canonical(w);
    var ids := PlanIDs(w);
    var aliases := StableSort(AliasLess(lower), w.identity.aliases);
    var titles := [canonical];
    var seen := {canonical.q};
    ghost var texts := [canonical.q];
    FirstText(w);
    for i := 0 to |aliases|
      invariant texts == Unique([canonical.q] + RenderedAll(w, EligibleOf(aliases[..i])))
      invariant titles == WithTexts(canonical, texts)
      invariant forall s :: s in seen <==> s in texts
    {
      var a := aliases[i];
      EligibleSnoc(aliases, i);
      if !Eligible(a) {
        continue;
      }
      var q := canonical.(q := Rendered(w, a.title));
      RenderedSnoc(w, EligibleOf(aliases[..i]), a);
      UniqueSnoc([canonical.q] + RenderedAll(w, EligibleOf(aliases[..i])), q.q);
      assert [canonical.q] + (RenderedAll(w, EligibleOf(aliases[..i])) + [q.q]) == [canonical.q] + RenderedAll(w, EligibleOf(aliases[..i])) + [q.q];
      if q.q in seen {
        continue;
      }
      WithTextsSnoc(canonical, texts, q.q);
      titles, texts := titles + [q], texts + [q.q];
      seen := seen + {q.q};
    }
    assert aliases[..|aliases|] == aliases;
    plan := Plan(ids, titles);
  }

  lemma FirstText(w: Wantable)
    requires !w.Book?
    ensures Unique([Canonical(w).q] + RenderedAll(w, EligibleOf([]))) == [Canonical(w).q]
    ensures WithTexts(Canonical(w), [Canonical(w).q]) == [Canonical(w)]
  {
    hide Canonical, Rendered;
    OneText(w, Canonical(w));
  }

  lemma OneText(w: Wantable, canonical: SearchQuery)
    requires !w.Book?
    ensures Unique([canonical.q] + RenderedAll(w, EligibleOf([]))) == [canonical.q]
    ensures WithTexts(canonical, [canonical.q]) == [canonical]
  {
    hide Unique, Canonical, Rendered;
    assert [canonical.q] + RenderedAll(w, EligibleOf([])) == [canonical.q];
    UniqueKeepsDistinct([canonical.q]);
    assert [canonical.q][..0] == [];
  }

  lemma EligibleSnoc(aliases: seq<Alias>, i: nat)
    requires i < |aliases|
    ensures EligibleOf(aliases[..i + 1]) ==
      if Eligible(aliases[i]) then EligibleOf(aliases[..i]) + [aliases[i]] else EligibleOf(aliases[..i])
  {
    assert aliases[..i + 1][..i] == aliases[..i];
  }

  lemma RenderedSnoc(w: Wantable, aliases: seq<Alias>, a: Alias)
    requires !w.Book?
    ensures RenderedAll(w, aliases + [a]) == RenderedAll(w, aliases) + [Rendered(w, a.title)]
  {
    assert (aliases + [a])[..|aliases|] == aliases;
  }

  /** `PlanSearch`. */
  method PlanSearch(w: Wantable, lower: string -> string) returns (queries: seq<SearchQuery>)
    ensures !w.Book? ==> queries == [Canonical(w)]
    ensures w.Book? ==> queries != [] && queries[|queries| - 1] == NO_QUERY.(q := w.title, kind := KindBook, bookType := w.bookType)
    ensures w.Book? ==> |queries| == if w.author == "" then 1 else 2
    ensures w.Book? && w.author != "" ==> queries[0] == queries[1].(q := w.author + " " + w.title)
  {
    if w.Book? {
      var byTitle := NO_QUERY.(q := w.title, kind := KindBook, bookType := w.bookType);
      if w.author == "" {
        return [byTitle];
      }
      return [byTitle.(q := w.author + " " + w.title), byTitle];
    }
    var plan := PlanVideoSearch(w, lower);
    CanonicalComesFirst(w, lower);
    queries := plan.titles[..1];
  }

  lemma {:induction false} WithTextsAt(canonical: SearchQuery, texts: seq<string>)
    ensures |WithTexts(canonical, texts)| == |texts|
    ensures forall i :: 0 <= i < |texts| ==> WithTexts(canonical, texts)[i] == canonical.(q := texts[i])
  {
    if texts != [] {
      WithTextsAt(canonical, texts[..|texts| - 1]);
    }
  }

  /** The first title is the canonical query. */
  lemma CanonicalComesFirst(w: Wantable, lower: string -> string)
    requires !w.Book?
    ensures var titles := WithTexts(Canonical(w), TitleTexts(w, lower)); titles != [] && titles[0] == Canonical(w)
  {
    hide Canonical, RenderedAll, Preferred;
    var q := Canonical(w).q;
    UniqueGrows([q], RenderedAll(w, Preferred(w, lower)));
    UniqueKeepsDistinct([q]);
    WithTextsAt(Canonical(w), TitleTexts(w, lower));
  }

  // ---------- what a plan holds ----------

  /** An alias the planner may search for under the text `text`. */
  predicate Names(w: Wantable, a: Alias, text: string)
    requires !w.Book?
  {
    a in w.identity.aliases && Eligible(a) && Rendered(w, a.title) == text
  }

  lemma {:induction false} EligibleMembers(aliases: seq<Alias>)
    ensures forall a :: a in EligibleOf(aliases) <==> a in aliases && Eligible(a)
  {
    if aliases != [] {
      EligibleMembers(aliases[..|aliases| - 1]);
      assert aliases == aliases[..|aliases| - 1] + [aliases[|aliases| - 1]];
    }
  }

  lemma {:induction false} RenderedAt(w: Wantable, aliases: seq<Alias>)
    requires !w.Book?
    ensures |RenderedAll(w, aliases)| == |aliases|
    ensures forall i :: 0 <= i < |aliases| ==> RenderedAll(w, aliases)[i] == Rendered(w, aliases[i].title)
  {
    hide Rendered;
    if aliases != [] {
      RenderedAt(w, aliases[..|aliases| - 1]);
    }
  }

  lemma PreferredMembers(w: Wantable, lower: string -> string)
    requires !w.Book?
    ensures forall a :: a in Preferred(w, lower) <==> a in w.identity.aliases && Eligible(a)
  {
    hide StableSort, Eligible, AliasLess, EligibleOf;
    var sorted := StableSort(AliasLess(lower), w.identity.aliases);
    EligibleMembers(sorted);
    assert forall a :: a in sorted <==> a in multiset(sorted);
    assert forall a :: a in w.identity.aliases <==> a in multiset(w.identity.aliases);
  }

  /** Soundness and completeness of the titles: their texts are pairwise distinct, and they are
      the canonical text and what the searchable, work-scoped, named aliases render to. */
  lemma TitlesAreExact(w: Wantable, lower: string -> string, text: string)
    requires !w.Book?
    ensures NoDup(TitleTexts(w, lower))
    ensures text in TitleTexts(w, lower) <==> text == Canonical(w).q || exists a :: Names(w, a, text)
  {
    hide Canonical, Rendered, Eligible, Unique, Preferred, RenderedAll, NoDup, Subseq;
    var preferred := Preferred(w, lower);
    var all := [Canonical(w).q] + RenderedAll(w, preferred);
    UniqueIsASet(all);
    assert text in TitleTexts(w, lower) <==> text in all by {
      assert text in Unique(all) <==> text in Elements(Unique(all));
      assert text in all <==> text in Elements(all);
    }
    RenderedAt(w, preferred);
    PreferredMembers(w, lower);
    if a :| Names(w, a, text) {
      var k :| 0 <= k < |preferred| && preferred[k] == a;
      assert all[k + 1] == text;
    }
    if text in all && text != Canonical(w).q {
      var k :| 0 <= k < |all| && all[k] == text;
      assert preferred[k - 1] in preferred;
      assert Names(w, preferred[k - 1], text);
    }
  }

  /** Every title and identifier query keeps the canonical kind, season and episode fields; title
      queries differ only in their text, identifier queries have no text. */
  lemma QueriesKeepTheWork(w: Wantable, lower: string -> string, q: SearchQuery)
    requires !w.Book?
    requires q in WithTexts(Canonical(w), TitleTexts(w, lower)) || q in WithRefs(Canonical(w), RefsOf(w))
    ensures var c := Canonical(w);
      && q.kind == c.kind && q.season == c.season && q.episode == c.episode
      && q.seasonSet == c.seasonSet && q.episodeSet == c.episodeSet
      && q.seasonSet == !w.Movie? && q.episodeSet == w.Episode?
      && (q.id.Some? ==> q.q == "" && Usable(q.id.value.value) && (q.id.value.provider == "tvdb" ==> !w.Movie?))
      && (q.id.None? ==> q.q in TitleTexts(w, lower))
  {
    hide Rendered, TitleTexts, Decimal;
    var texts := TitleTexts(w, lower);
    WithTextsAt(Canonical(w), texts);
    WithRefsAt(Canonical(w), RefsOf(w));
    RefsAreUsable(w);
    if q in WithTexts(Canonical(w), texts) {
      var i :| 0 <= i < |texts| && WithTexts(Canonical(w), texts)[i] == q;
      assert q.q == texts[i];
    } else {
      var i :| 0 <= i < |RefsOf(w)| && WithRefs(Canonical(w), RefsOf(w))[i] == q;
      assert q.id == Some(RefsOf(w)[i]);
    }
  }

  lemma {:induction false} WithRefsAt(canonical: SearchQuery, refs: seq<ExternalRef>)
    ensures |WithRefs(canonical, refs)| == |refs|
    ensures forall i :: 0 <= i < |refs| ==> WithRefs(canonical, refs)[i] == canonical.(q := "", id := Some(refs[i]))
  {
    if refs != [] {
      WithRefsAt(canonical, refs[..|refs| - 1]);
    }
  }

  lemma RefsAreUsable(w: Wantable)
    requires !w.Book?
    ensures forall i :: 0 <= i < |RefsOf(w)| ==> Usable(RefsOf(w)[i].value) && (RefsOf(w)[i].provider == "tvdb" ==> !w.Movie?)
  {
    hide Decimal;
    if w.identity.ids.tvdb > 0 {
      PositiveIsUsable(w.identity.ids.tvdb);
    }
    if w.identity.ids.tmdb > 0 {
      PositiveIsUsable(w.identity.ids.tmdb);
    }
  }

  lemma AliasLessIsWeak(lower: string -> string)
    ensures StrictWeak(AliasLess(lower))
  {
    hide CodeLess;
    var less := AliasLess(lower);
    forall a, b | less(a, b) ensures !less(b, a) {
      CodeLessAsymmetric(lower(a.title), lower(b.title));
    }
    forall a, b, c | less(a, c) ensures less(a, b) || less(b, c) {
      if Priority(a) == Priority(b) == Priority(c) {
        CodeLessSplits(lower(a.title), lower(b.title), lower(c.title));
      }
    }
  }

  lemma {:induction false} EligibleStaysSorted(less: Less<Alias>, aliases: seq<Alias>)
    requires SortedBy(less, aliases)
    ensures SortedBy(less, EligibleOf(aliases))
  {
    if aliases != [] {
      var front, last := aliases[..|aliases| - 1], aliases[|aliases| - 1];
      EligibleStaysSorted(less, front);
      EligibleMembers(front);
      forall i | 0 <= i < |EligibleOf(front)| ensures !less(last, EligibleOf(front)[i]) {
        assert EligibleOf(front)[i] in front;
        var k :| 0 <= k < |front| && front[k] == EligibleOf(front)[i];
        assert aliases[k] == front[k];
      }
    }
  }

  lemma PreferredIsSorted(w: Wantable, lower: string -> string)
    requires !w.Book?
    ensures SortedBy(AliasLess(lower), Preferred(w, lower))
  {
    hide StableSort, AliasLess, EligibleOf, SortedBy, StrictWeak;
    AliasLessIsWeak(lower);
    StableSortSorts(AliasLess(lower), w.identity.aliases);
    EligibleStaysSorted(AliasLess(lower), StableSort(AliasLess(lower), w.identity.aliases));
  }

  /** No alias with the text `text` is preferred to `a`. */
  ghost predicate NotBefore(w: Wantable, lower: string -> string, text: string, a: Alias)
    requires !w.Book?
  {
    forall b :: Names(w, b, text) ==> !AliasLess(lower)(b, a)
  }

  /** The titles after the first come in the order of their best aliases: manual before original
      before others, and then by the lower-cased title. Some alias of an earlier title is not
      preceded by any alias of a later one. */
  lemma TitlesFollowPreference(w: Wantable, lower: string -> string, i: nat, j: nat)
    requires !w.Book? && 1 <= i < j < |TitleTexts(w, lower)|
    ensures exists a :: Names(w, a, TitleTexts(w, lower)[i]) && NotBefore(w, lower, TitleTexts(w, lower)[j], a)
  {
    hide Canonical, Rendered, Eligible, Unique, Preferred, RenderedAll, AliasLess, Subseq;
    var preferred, texts := Preferred(w, lower), TitleTexts(w, lower);
    var all := [Canonical(w).q] + RenderedAll(w, preferred);
    RenderedAt(w, preferred);
    PreferredMembers(w, lower);
    PreferredIsSorted(w, lower);
    UniqueIsASet(all);
    UniqueGrows([Canonical(w).q], RenderedAll(w, preferred));
    UniqueKeepsDistinct([Canonical(w).q]);
    var p := UniqueOrder(all, i, j);
    assert texts[0] == Canonical(w).q && texts[i] != texts[0];
    var a := preferred[p - 1];
    assert a in preferred && Names(w, a, texts[i]);
    forall b | Names(w, b, texts[j]) ensures !AliasLess(lower)(b, a) {
      var k :| 0 <= k < |preferred| && preferred[k] == b;
      assert all[k + 1] == texts[j];
    }
    assert NotBefore(w, lower, texts[j], a);
  }
}
