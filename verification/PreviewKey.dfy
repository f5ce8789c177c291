/** Preview keys of `mobile/src/metadataPreview.ts`: printed from a search result, parsed, turned
    into a query and matched against results. */
module PreviewKey {
  import opened Base
  import opened Text

  const MAX_SAFE_INTEGER: int := 9007199254740991

  /** A JavaScript number: an integer that is exact, or anything else. */
  datatype Number = Exact(i: int) | Inexact

  datatype Kind = Movie | Series | Book

  datatype SearchResult = SearchResult(
    kind: Kind, olid: Option<string>, tvdbId: Option<Number>, tmdbId: Option<Number>, hydrationSource: Option<string>)

  /** What `parsePreviewKey` returns. */
  datatype Ref = Ref(kind: string, provider: string, id: string)

  function KindName(k: Kind): string {
    match k case Movie => "movie" case Series => "series" case Book => "book"
  }

  /** `positiveID`. */
  predicate PositiveID(n: Option<Number>) {
    n.Some? && n.value.Exact? && 0 < n.value.i <= MAX_SAFE_INTEGER
  }

  /** `/^OL[0-9]+W$/`. */
  predicate WorkID(s: string) {
    |s| >= 4 && s[..2] == "OL" && s[|s| - 1] == 'W' && forall i :: 2 <= i < |s| - 1 ==> IsDigit(s[i])
  }

  /** `/^[1-9][0-9]*$/`. */
  predicate PlainNumber(s: string) {
    AllDigits(s) && s[0] != '0'
  }

  /** `Number` of a numeral: numerals beyond the safe integers are not exact. */
  function NumberOf(s: string): Number
    requires AllDigits(s)
  {
    if ValueOf(s) <= MAX_SAFE_INTEGER then Exact(ValueOf(s)) else Inexact
  }

  function KeyOf(kind: string, provider: string, id: string): string {
    kind + ":" + provider + ":" + id
  }

  function PreviewKey(item: SearchResult): Option<string> {
    if item.kind == Book then
      if item.olid.Some? && WorkID(item.olid.value) then Some(KeyOf("book", "olid", item.olid.value)) else None
    else if item.kind == Series && PositiveID(item.tvdbId) && item.hydrationSource != Some("tmdb") then
      Some(KeyOf("series", "tvdb", Decimal(item.tvdbId.value.i)))
    else if PositiveID(item.tmdbId) then Some(KeyOf(KindName(item.kind), "tmdb", Decimal(item.tmdbId.value.i)))
    else if item.kind == Series && PositiveID(item.tvdbId) then Some(KeyOf("series", "tvdb", Decimal(item.tvdbId.value.i)))
    else None
  }

  predicate Numeric(kind: string, provider: string) {
    (kind == "movie" || kind == "series") && (provider == "tmdb" || (kind == "series" && provider == "tvdb"))
  }

  function ParsePreviewKey(key: string): Option<Ref> {
    var f := SplitColon(key);
    if |f| > 3 || |f| < 2 then None
    else
      var kind, provider, id := f[0], f[1], if |f| == 3 then f[2] else "";
      if kind == "book" && provider == "olid" && WorkID(id) then Some(Ref(kind, provider, id))
      else if Numeric(kind, provider) && PlainNumber(id) && PositiveID(Some(NumberOf(id))) then Some(Ref(kind, provider, id))
      else None
  }

  predicate Unreserved(c: char) {
    'a' <= c <= 'z' || 'A' <= c <= 'Z' || '0' <= c <= '9' || c in "-_.!~*'()"
  }

  /** `encodeURIComponent`; `escape` is what becomes of a reserved character. */
  function EncodeURIComponent(s: string, escape: char -> string): string {
    if s == "" then "" else (if Unreserved(s[0]) then [s[0]] else escape(s[0])) + EncodeURIComponent(s[1..], escape)
  }

  function ParameterOf(provider: string): string {
    if provider == "olid" then "olid" else provider + "Id"
  }

  /** `previewQuery`; None stands for the exception. */
  function PreviewQuery(key: string, escape: char -> string): Option<string> {
    var parsed := ParsePreviewKey(key);
    if parsed.None? then None
    else Some("kind=" + parsed.value.kind + "&" + ParameterOf(parsed.value.provider) + "=" + EncodeURIComponent(parsed.value.id, escape))
  }

  function ProviderID(item: SearchResult, provider: string): Option<Number> {
    if provider == "tvdb" then item.tvdbId else item.tmdbId
  }

  predicate MatchesPreviewKey(item: SearchResult, key: string) {
    var ref := ParsePreviewKey(key);
    && ref.Some? && KindName(item.kind) == ref.value.kind
    && (ref.value.provider == "olid" ==> item.olid == Some(ref.value.id))
    && (ref.value.provider != "olid" ==> AllDigits(ref.value.id) && ProviderID(item, ref.value.provider) == Some(NumberOf(ref.value.id)))
  }

  // ---------- keys and their parts ----------

  lemma SplitKey(kind: string, provider: string, id: string)
    requires NoColon(kind) && NoColon(provider) && NoColon(id)
    ensures SplitColon(KeyOf(kind, provider, id)) == [kind, provider, id]
  {
    hide SplitColon;
    SplitFirst(id, "");
    SplitFirst(provider, id);
    SplitFirst(kind, provider + ":" + id);
    assert KeyOf(kind, provider, id) == kind + ":" + (provider + ":" + id);
    assert [provider] + [id] == [provider, id];
  }

  predicate WellFormed(r: Ref) {
    || (r.kind == "book" && r.provider == "olid" && WorkID(r.id))
    || (Numeric(r.kind, r.provider) && PlainNumber(r.id) && PositiveID(Some(NumberOf(r.id))))
  }

  lemma WellFormedHasNoColon(r: Ref)
    requires WellFormed(r)
    ensures NoColon(r.kind) && NoColon(r.provider) && NoColon(r.id)
  {
    if r.kind == "book" && WorkID(r.id) {
      forall i | 0 <= i < |r.id| ensures r.id[i] != ':' {
        assert i < 2 ==> r.id[i] == r.id[..2][i];
      }
    }
  }

  /** The parser accepts exactly the printed forms of well-formed references, and gives each its
      own parts back: what is accepted re-prints to itself. */
  lemma ParseIsPrintInverse(key: string, r: Ref)
    ensures ParsePreviewKey(key) == Some(r) <==> WellFormed(r) && key == KeyOf(r.kind, r.provider, r.id)
  {
    hide SplitColon, WorkID, PlainNumber, Numeric, NumberOf;
    if WellFormed(r) && key == KeyOf(r.kind, r.provider, r.id) {
      WellFormedHasNoColon(r);
      SplitKey(r.kind, r.provider, r.id);
      NumericIsNotBook(r.kind, r.provider);
    }
    if ParsePreviewKey(key) == Some(r) {
      JoinSplit(key);
      var f := SplitColon(key);
      EmptyIsNoID();
      assert |f| == 3 && f == [f[0], f[1], f[2]];
      JoinThree(f[0], f[1], f[2]);
    }
  }

  lemma EmptyIsNoID()
    ensures !WorkID("") && !PlainNumber("")
  {
  }

  lemma NumericIsNotBook(kind: string, provider: string)
    ensures Numeric(kind, provider) ==> kind != "book" && provider != "olid"
  {
  }

  lemma JoinThree(a: string, b: string, c: string)
    ensures JoinColon([a, b, c]) == KeyOf(a, b, c)
  {
    assert [a, b, c] == [a] + [b, c] && [b, c] == [b] + [c];
    JoinCons(a, [b, c]);
    JoinCons(b, [c]);
    assert a + ":" + (b + ":" + c) == a + ":" + b + ":" + c;
  }

  // ---------- printing, parsing, matching ----------

  lemma PrintedNumber(n: int)
    requires 0 < n <= MAX_SAFE_INTEGER
    ensures PlainNumber(Decimal(n)) && NumberOf(Decimal(n)) == Exact(n)
  {
    ReadDigits(n);
  }

  /** What the key printed for an item refers to. */
  lemma KeyRefersToItem(item: SearchResult) returns (r: Ref)
    requires PreviewKey(item).Some?
    ensures WellFormed(r) && PreviewKey(item).value == KeyOf(r.kind, r.provider, r.id)
    ensures r.kind == KindName(item.kind)
    ensures if r.provider == "olid" then item.olid == Some(r.id) else AllDigits(r.id) && ProviderID(item, r.provider) == Some(NumberOf(r.id))
  {
    hide KeyOf, WorkID, Decimal, PlainNumber, NumberOf;
    if item.kind == Book {
      r := Ref("book", "olid", item.olid.value);
    } else {
      var series := item.kind == Series && PositiveID(item.tvdbId) && (item.hydrationSource != Some("tmdb") || !PositiveID(item.tmdbId));
      var n := if series then item.tvdbId.value.i else item.tmdbId.value.i;
      PrintedNumber(n);
      PlainIsDigits(Decimal(n));
      r := Ref(KindName(item.kind), if series then "tvdb" else "tmdb", Decimal(n));
    }
  }

  lemma PlainIsDigits(s: string)
    requires PlainNumber(s)
    ensures AllDigits(s)
  {
  }

  /** Every key printed for an item parses, makes a query and matches that item. */
  lemma PrintedKeyWorks(item: SearchResult, escape: char -> string)
    requires PreviewKey(item).Some?
    ensures var key := PreviewKey(item).value;
      ParsePreviewKey(key).Some? && PreviewQuery(key, escape).Some? && MatchesPreviewKey(item, key)
  {
    hide PreviewKey, KeyOf, WellFormed, ParsePreviewKey, NumberOf;
    var r := KeyRefersToItem(item);
    ParseIsPrintInverse(PreviewKey(item).value, r);
  }

  /** An item with exactly the identifiers of a reference. */
  function ItemOf(r: Ref): SearchResult
    requires WellFormed(r)
  {
    if r.kind == "book" then SearchResult(Book, Some(r.id), None, None, None)
    else
      SearchResult(if r.kind == "movie" then Movie else Series, None,
        if r.provider == "tvdb" then Some(NumberOf(r.id)) else None,
        if r.provider == "tmdb" then Some(NumberOf(r.id)) else None, None)
  }

  /** Conversely every accepted key is the key of some item. */
  lemma AcceptedKeyIsPrinted(key: string)
    requires ParsePreviewKey(key).Some?
    ensures exists item :: PreviewKey(item) == Some(key)
  {
    hide ParsePreviewKey, KeyOf, WorkID;
    var r := ParsePreviewKey(key).value;
    ParseIsPrintInverse(key, r);
    if r.kind != "book" {
      PrintRead(r.id);
    }
    assert PreviewKey(ItemOf(r)) == Some(key);
  }

  // ---------- distinct keys, distinct identities ----------

  /** The external identity a reference names: a work, or a number at a provider. */
  datatype Identity = Work(olid: string) | Numbered(kind: string, provider: string, n: Number)

  function IdentityOf(r: Ref): Identity
    requires WellFormed(r)
  {
    if r.kind == "book" then Work(r.id) else Numbered(r.kind, r.provider, NumberOf(r.id))
  }

  /** Accepted keys and the identities they name correspond one to one. */
  lemma KeysNameDistinctIdentities(a: string, b: string)
    requires ParsePreviewKey(a).Some? && ParsePreviewKey(b).Some?
    ensures WellFormed(ParsePreviewKey(a).value) && WellFormed(ParsePreviewKey(b).value)
    ensures IdentityOf(ParsePreviewKey(a).value) == IdentityOf(ParsePreviewKey(b).value) <==> a == b
  {
    hide ParsePreviewKey, KeyOf, WorkID;
    var r, q := ParsePreviewKey(a).value, ParsePreviewKey(b).value;
    ParseIsPrintInverse(a, r);
    ParseIsPrintInverse(b, q);
    if IdentityOf(r) == IdentityOf(q) && r.kind != "book" {
      PrintRead(r.id);
      PrintRead(q.id);
    }
  }

  /** An item matches at most one key of each provider, so a cached preview is never shown for a
      different work of the same provider. */
  lemma MatchIsUnique(item: SearchResult, a: string, b: string)
    requires MatchesPreviewKey(item, a) && MatchesPreviewKey(item, b)
    requires ParsePreviewKey(a).value.provider == ParsePreviewKey(b).value.provider
    ensures a == b
  {
    hide ParsePreviewKey, KeyOf, WorkID, NumberOf;
    var r, q := ParsePreviewKey(a).value, ParsePreviewKey(b).value;
    ParseIsPrintInverse(a, r);
    ParseIsPrintInverse(b, q);
    KeysNameDistinctIdentities(a, b);
  }

  lemma {:induction false} PlainTextIsKept(s: string, escape: char -> string)
    requires forall i :: 0 <= i < |s| ==> Unreserved(s[i])
    ensures EncodeURIComponent(s, escape) == s
  {
    if s != "" {
      PlainTextIsKept(s[1..], escape);
    }
  }

  lemma IDIsUnreserved(r: Ref)
    requires WellFormed(r)
    ensures forall i :: 0 <= i < |r.id| ==> Unreserved(r.id[i])
  {
    if r.kind == "book" && WorkID(r.id) {
      assert r.id[0] == r.id[..2][0] && r.id[1] == r.id[..2][1];
    }
  }

  function QueryStart(kind: string, provider: string): string {
    "kind=" + kind + "&" + ParameterOf(provider) + "="
  }

  lemma QueryIs(key: string, escape: char -> string)
    requires ParsePreviewKey(key).Some?
    ensures var r := ParsePreviewKey(key).value;
      WellFormed(r) && key == KeyOf(r.kind, r.provider, r.id) && PreviewQuery(key, escape) == Some(QueryStart(r.kind, r.provider) + r.id)
  {
    hide ParsePreviewKey, KeyOf, WellFormed;
    var r := ParsePreviewKey(key).value;
    ParseIsPrintInverse(key, r);
    IDIsUnreserved(r);
    PlainTextIsKept(r.id, escape);
  }

  /** The request made for a key tells the key: different keys never share a request. */
  lemma QueriesAreDistinct(a: string, b: string, escape: char -> string)
    requires ParsePreviewKey(a).Some? && ParsePreviewKey(b).Some?
    ensures PreviewQuery(a, escape) == PreviewQuery(b, escape) <==> a == b
  {
    hide ParsePreviewKey, KeyOf, PreviewQuery, WorkID, PlainNumber, NumberOf, QueryStart;
    QueryIs(a, escape);
    QueryIs(b, escape);
    var r, q := ParsePreviewKey(a).value, ParsePreviewKey(b).value;
    if PreviewQuery(a, escape) == PreviewQuery(b, escape) {
      StartsDiffer(r, q);
      var start := QueryStart(r.kind, r.provider);
      assert (start + r.id)[|start|..] == r.id && (start + q.id)[|start|..] == q.id;
    }
  }

  lemma StartsDiffer(r: Ref, q: Ref)
    requires WellFormed(r) && WellFormed(q)
    requires QueryStart(r.kind, r.provider) + r.id == QueryStart(q.kind, q.provider) + q.id
    ensures r.kind == q.kind && r.provider == q.provider
  {
    hide WorkID, PlainNumber, NumberOf;
    StartOf(r);
    StartOf(q);
    var s, t := QueryStart(r.kind, r.provider) + r.id, QueryStart(q.kind, q.provider) + q.id;
    assert s[5] == t[5];
    if r.kind == "series" && q.kind == "series" {
      assert s[13] == t[13];
    }
  }

  /** The characters that tell the beginnings of queries apart. */
  lemma StartOf(r: Ref)
    requires WellFormed(r)
    ensures var s := QueryStart(r.kind, r.provider);
      && |s| > 13 && s[5] == (if r.kind == "book" then 'b' else if r.kind == "movie" then 'm' else 's')
      && (r.kind == "series" ==> s[13] == (if r.provider == "tvdb" then 'v' else 'm'))
  {
    hide WorkID, PlainNumber, NumberOf, QueryStart, ParameterOf;
    StartAt(r.kind, r.provider);
    ParameterStart(r.provider);
  }

  lemma ParameterStart(provider: string)
    requires provider == "olid" || provider == "tvdb" || provider == "tmdb"
    ensures var p := ParameterOf(provider);
      |p| >= 4 && (provider == "tvdb" ==> |p| == 6 && p[1] == 'v') && (provider == "tmdb" ==> |p| == 6 && p[1] == 'm')
  {
    if provider != "olid" {
      assert ParameterOf(provider)[1] == provider[1];
    }
  }

  lemma StartAt(kind: string, provider: string)
    requires kind != ""
    ensures var s, p := QueryStart(kind, provider), ParameterOf(provider);
      && |s| == 7 + |kind| + |p| && s[5] == kind[0]
      && forall i :: 0 <= i < |p| ==> s[6 + |kind| + i] == p[i]
  {
    hide ParameterOf;
  }
}
