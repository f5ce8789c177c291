/** Wantables, their identity strings and their search plans, after
    `internal/domain/wantable.go`. Lower-casing is a parameter. */
module Wantable {
  import opened Base
  import opened Sequences
  import opened Sorting
  import opened Text

  datatype Alias = Alias(title: string, source: string, role: string, scope: string, searchable: bool)

  datatype IDs = IDs(tvdb: int, imdb: string, tmdb: int)

  datatype MediaIdentity = MediaIdentity(title: string, year: int, ids: IDs, aliases: seq<Alias>)

  datatype Wantable =
    | Movie(item: int, title: string, year: int, identity: MediaIdentity, copy: int)
    | Episode(item: int, title: string, year: int, identity: MediaIdentity, season: int, episode: int, copy: int)
    | Season(item: int, title: string, year: int, identity: MediaIdentity, season: int, copy: int)
    | Book(item: int, title: string, author: string, bookType: string, copy: int)

  // ---------- identity strings ----------

  function CopySuffix(base: string, copyID: int): string {
    if copyID == 0 then base else base + ":c" + Decimal(copyID)
  }

  /** The four `ID()` methods. */
  function ID(w: Wantable): string {
    match w
    case Movie(item, _, _, _, copy) => CopySuffix(JoinColon(["movie", Decimal(item)]), copy)
    case Episode(item, _, _, _, season, episode, copy) =>
      CopySuffix(JoinColon(["episode", Decimal(item), Decimal(season), Decimal(episode)]), copy)
    case Season(item, _, _, _, season, copy) => CopySuffix(JoinColon(["season", Decimal(item), Decimal(season)]), copy)
    case Book(item, _, _, _, copy) => CopySuffix(JoinColon(["book", Decimal(item)]), copy)
  }

  /** What an identity string is to tell apart. */
  datatype Identity =
    | OfMovie(item: int, copy: int)
    | OfEpisode(item: int, season: int, episode: int, copy: int)
    | OfSeason(item: int, season: int, copy: int)
    | OfBook(item: int, copy: int)

  function IdentityOf(w: Wantable): Identity {
    match w
    case Movie(item, _, _, _, copy) => OfMovie(item, copy)
    case Episode(item, _, _, _, season, episode, copy) => OfEpisode(item, season, episode, copy)
    case Season(item, _, _, _, season, copy) => OfSeason(item, season, copy)
    case Book(item, _, _, _, copy) => OfBook(item, copy)
  }

  /** A reader of identity strings: the kind says how many numbers follow, then the copy. */
  function ReadID(id: string): Option<Identity> {
    var f := SplitColon(id);
    if f[0] == "movie" then
      var r := ReadNumbers(f, 1);
      if r.Some? then Some(OfMovie(r.value.0[0], r.value.1)) else None
    else if f[0] == "book" then
      var r := ReadNumbers(f, 1);
      if r.Some? then Some(OfBook(r.value.0[0], r.value.1)) else None
    else if f[0] == "season" then
      var r := ReadNumbers(f, 2);
      if r.Some? then Some(OfSeason(r.value.0[0], r.value.0[1], r.value.1)) else None
    else if f[0] == "episode" then
      var r := ReadNumbers(f, 3);
      if r.Some? then Some(OfEpisode(r.value.0[0], r.value.0[1], r.value.0[2], r.value.1)) else None
    else None
  }

  /** `n` numbers after the kind and an optional copy. */
  function ReadNumbers(f: seq<string>, n: nat): (r: Option<(seq<int>, int)>)
    ensures r.Some? ==> |r.value.0| == n
  {
    if |f| < n + 1 then None
    else
      var numbers := ReadAll(f[1..n + 1]);
      var copy := if |f| == n + 1 then Some(0)
                  else if |f| == n + 2 && f[n + 1] != "" && f[n + 1][0] == 'c' then ReadDecimal(f[n + 1][1..])
                  else None;
      if numbers.Some? && copy.Some? then Some((numbers.value, copy.value)) else None
  }

  function ReadAll(f: seq<string>): (r: Option<seq<int>>)
    ensures r.Some? ==> |r.value| == |f|
  {
    if f == [] then Some([])
    else
      var first, rest := ReadDecimal(f[0]), ReadAll(f[1..]);
      if first.Some? && rest.Some? then Some([first.value] + rest.value) else None
  }

  function NumbersOf(w: Wantable): seq<int> {
    match w
    case Movie(item, _, _, _, _) => [item]
    case Episode(item, _, _, _, season, episode, _) => [item, season, episode]
    case Season(item, _, _, _, season, _) => [item, season]
    case Book(item, _, _, _, _) => [item]
  }

  function KindName(w: Wantable): string {
    match w case Movie(_, _, _, _, _) => "movie" case Episode(_, _, _, _, _, _, _) => "episode"
    case Season(_, _, _, _, _, _) => "season" case Book(_, _, _, _, _) => "book"
  }

  function Decimals(numbers: seq<int>): seq<string> {
    if numbers == [] then [] else [Decimal(numbers[0])] + Decimals(numbers[1..])
  }

  function FieldsOf(w: Wantable): seq<string> {
    [KindName(w)] + Decimals(NumbersOf(w)) + (if w.copy == 0 then [] else ["c" + Decimal(w.copy)])
  }

  lemma {:induction false} DecimalsRead(numbers: seq<int>)
    ensures |Decimals(numbers)| == |numbers| && ReadAll(Decimals(numbers)) == Some(numbers)
    ensures forall i :: 0 <= i < |numbers| ==> NoColon(Decimals(numbers)[i])
  {
    if numbers != [] {
      DecimalsRead(numbers[1..]);
      ReadPrinted(numbers[0]);
      DecimalFields(numbers[0]);
      assert Decimals(numbers)[0] == Decimal(numbers[0]);
      assert [numbers[0]] + numbers[1..] == numbers;
      assert Decimals(numbers)[1..] == Decimals(numbers[1..]);
    }
  }

  lemma {:induction false} JoinSnoc(fields: seq<string>, last: string)
    requires fields != []
    ensures JoinColon(fields + [last]) == JoinColon(fields) + ":" + last
  {
    if |fields| == 1 {
      assert (fields + [last])[1..] == [last];
    } else {
      JoinSnoc(fields[1..], last);
      assert (fields + [last])[1..] == fields[1..] + [last];
      assert fields[0] + ":" + (JoinColon(fields[1..]) + ":" + last) == fields[0] + ":" + JoinColon(fields[1..]) + ":" + last;
    }
  }

  lemma SuffixIsAField(fields: seq<string>, copy: int)
    requires fields != []
    ensures CopySuffix(JoinColon(fields), copy) == JoinColon(fields + (if copy == 0 then [] else ["c" + Decimal(copy)]))
  {
    hide Decimal, JoinColon;
    if copy == 0 {
      assert fields + [] == fields;
    } else {
      JoinSnoc(fields, "c" + Decimal(copy));
      assert JoinColon(fields) + ":" + ("c" + Decimal(copy)) == JoinColon(fields) + ":c" + Decimal(copy);
    }
  }

  lemma KindAndNumbers(w: Wantable)
    ensures [KindName(w)] + Decimals(NumbersOf(w)) == match w
      case Movie(item, _, _, _, copy) => ["movie", Decimal(item)]
      case Episode(item, _, _, _, season, episode, copy) => ["episode", Decimal(item), Decimal(season), Decimal(episode)]
      case Season(item, _, _, _, season, copy) => ["season", Decimal(item), Decimal(season)]
      case Book(item, _, _, _, copy) => ["book", Decimal(item)]
  {
    hide Decimal;
    DecimalsAt(NumbersOf(w));
  }

  lemma {:induction false} DecimalsAt(numbers: seq<int>)
    ensures |Decimals(numbers)| == |numbers| && forall i :: 0 <= i < |numbers| ==> Decimals(numbers)[i] == Decimal(numbers[i])
  {
    if numbers != [] {
      DecimalsAt(numbers[1..]);
    }
  }

  lemma IDIsItsFields(w: Wantable)
    ensures ID(w) == JoinColon(FieldsOf(w))
  {
    hide Decimal, JoinColon, CopySuffix, KindName, Decimals, NumbersOf;
    KindAndNumbers(w);
    SuffixIsAField([KindName(w)] + Decimals(NumbersOf(w)), w.copy);
  }

  lemma FieldsRead(w: Wantable)
    ensures ReadNumbers(FieldsOf(w), |NumbersOf(w)|) == Some((NumbersOf(w), w.copy))
    ensures forall i :: 0 <= i < |FieldsOf(w)| ==> NoColon(FieldsOf(w)[i])
  {
    hide Decimal, ReadDecimal;
    var f, n := FieldsOf(w), |NumbersOf(w)|;
    DecimalsRead(NumbersOf(w));
    DecimalFields(w.copy);
    ReadPrinted(w.copy);
    assert f[1..n + 1] == Decimals(NumbersOf(w));
    if w.copy != 0 {
      assert f[n + 1] == "c" + Decimal(w.copy);
      assert f[n + 1][1..] == Decimal(w.copy);
    }
  }

  /** An identity string can be read back, whatever the numbers are. */
  lemma ReadPrintedID(w: Wantable)
    ensures ReadID(ID(w)) == Some(IdentityOf(w))
  {
    hide Decimal, ReadDecimal, ReadNumbers, FieldsOf, ID;
    KindIsFirst(w);
    IDIsItsFields(w);
    FieldsRead(w);
    SplitJoin(FieldsOf(w));
  }

  lemma KindIsFirst(w: Wantable)
    ensures FieldsOf(w) != [] && FieldsOf(w)[0] == KindName(w)
  {
  }

  /** Identities never cross: two wantables share an identity string exactly when they are of the
      same kind and agree on item, season, episode and copy. */
  lemma IdentitiesNeverCross(a: Wantable, b: Wantable)
    ensures ID(a) == ID(b) <==> IdentityOf(a) == IdentityOf(b)
  {
    hide Decimal, CopySuffix;
    ReadPrintedID(a);
    ReadPrintedID(b);
  }
}
