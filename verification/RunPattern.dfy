/** The one `-run` pattern of a shard in `scripts/ci-go-shard.py`: how it is written, and what a
    regular-expression engine reads in it. Only the syntax that escaped names can produce has a
    meaning here; any other special character makes the pattern unreadable. */
module RunPattern {
  import opened Base

  // ---------- writing ----------

  /** What `re.escape` puts a backslash before. */
  predicate Special(c: char) {
    c in "()[]{}?*+-|^$\\.&~# \t\n\r" || c == 11 as char || c == 12 as char
  }

  function EscapeChar(c: char): string {
    if Special(c) then "\\" + [c] else [c]
  }

  function Escape(name: string): string {
    if name == "" then "" else EscapeChar(name[0]) + Escape(name[1..])
  }

  function JoinedByBar(names: seq<string>): string {
    if names == [] then ""
    else if |names| == 1 then Escape(names[0])
    else Escape(names[0]) + "|" + JoinedByBar(names[1..])
  }

  const NO_TEST := "__NO_GO_TEST_IN_THIS_SHARD__"

  function Pattern(names: seq<string>): string {
    if names == [] then "^" + NO_TEST + "$" else "^(?:" + JoinedByBar(names) + ")$"
  }

  // ---------- reading ----------

  datatype Regex = Empty | Start | End | Lit(c: char) | Cat(first: Regex, then_: Regex) | Alt(left: Regex, right: Regex)

  datatype Parsed = Parsed(regex: Regex, rest: string)

  function ParseAlt(p: string): (r: Option<Parsed>)
    ensures r.Some? ==> |r.value.rest| <= |p|
    decreases |p|, 2
  {
    match ParseCat(p)
    case None => None
    case Some(first) =>
      if first.rest == "" || first.rest[0] != '|' then Some(first)
      else
        match ParseAlt(first.rest[1..])
        case None => None
        case Some(others) => Some(Parsed(Alt(first.regex, others.regex), others.rest))
  }

  function ParseCat(p: string): (r: Option<Parsed>)
    ensures r.Some? ==> |r.value.rest| <= |p|
    decreases |p|, 1
  {
    if p == "" || p[0] == '|' || p[0] == ')' then Some(Parsed(Empty, p))
    else
      match ParseAtom(p)
      case None => None
      case Some(atom) =>
        match ParseCat(atom.rest)
        case None => None
        case Some(others) => Some(Parsed(Cat(atom.regex, others.regex), others.rest))
  }

  function ParseAtom(p: string): (r: Option<Parsed>)
    requires p != ""
    ensures r.Some? ==> |r.value.rest| < |p|
    decreases |p|, 0
  {
    if p[0] == '^' then Some(Parsed(Start, p[1..]))
    else if p[0] == '$' then Some(Parsed(End, p[1..]))
    else if p[0] == '\\' then
      if |p| > 1 && Special(p[1]) then Some(Parsed(Lit(p[1]), p[2..])) else None
    else if "(?:" <= p then
      match ParseAlt(p[3..])
      case None => None
      case Some(group) =>
        if group.rest != "" && group.rest[0] == ')' then Some(Parsed(group.regex, group.rest[1..])) else None
    else if Special(p[0]) then None
    else Some(Parsed(Lit(p[0]), p[1..]))
  }

  function Parse(p: string): Option<Regex> {
    match ParseAlt(p)
    case Some(Parsed(r, "")) => Some(r)
    case _ => None
  }

  /** `r` matches `s[i..j]`. */
  ghost predicate Spans(r: Regex, s: string, i: nat, j: nat)
    requires i <= |s| && j <= |s|
  {
    match r
    case Empty => i == j
    case Start => i == j == 0
    case End => i == j == |s|
    case Lit(c) => j == i + 1 && s[i] == c
    case Cat(a, b) => exists k: nat :: k <= |s| && Spans(a, s, i, k) && Spans(b, s, k, j)
    case Alt(a, b) => Spans(a, s, i, j) || Spans(b, s, i, j)
  }

  /** An unanchored search. */
  ghost predicate Found(r: Regex, s: string) {
    exists i: nat, j: nat :: i <= |s| && j <= |s| && Spans(r, s, i, j)
  }

  /** The tests `go test -run p` runs. */
  ghost predicate Runs(p: string, name: string) {
    Parse(p).Some? && Found(Parse(p).value, name)
  }

  // ---------- reading what was written ----------

  function Literal(name: string, after: Regex): Regex {
    if name == "" then after else Cat(Lit(name[0]), Literal(name[1..], after))
  }

  function AnyOf(names: seq<string>): Regex
    requires names != []
  {
    if |names| == 1 then Literal(names[0], Empty)
    else Alt(Literal(names[0], Empty), AnyOf(names[1..]))
  }

  lemma CatStep(p: string)
    requires p != "" && p[0] != '|' && p[0] != ')' && ParseAtom(p).Some? && ParseCat(ParseAtom(p).value.rest).Some?
    ensures var atom := ParseAtom(p).value; var others := ParseCat(atom.rest).value;
      ParseCat(p) == Some(Parsed(Cat(atom.regex, others.regex), others.rest))
  {
    hide ParseAtom, ParseAlt;
  }

  lemma AtomStep(c: char, tail: string)
    ensures !Special(c) ==> ParseAtom([c] + tail) == Some(Parsed(Lit(c), tail))
    ensures Special(c) ==> ParseAtom("\\" + [c] + tail) == Some(Parsed(Lit(c), tail))
  {
    hide ParseAlt, ParseCat;
    if Special(c) {
      var p := "\\" + [c] + tail;
      assert p[2..] == tail;
      assert p[0] == '\\' && p[1] == c;
      assert ParseAtom(p) == Some(Parsed(Lit(p[1]), p[2..]));
    } else {
      var p := [c] + tail;
      assert p[1..] == tail;
      assert p[0] != '^' && p[0] != '$' && p[0] != '\\' && p[0] != '(' by {
        assert Special('^') && Special('$') && Special('\\') && Special('(');
      }
      assert !("(?:" <= p);
      assert ParseAtom(p) == Some(Parsed(Lit(p[0]), p[1..]));
    }
  }

  lemma CharStep(c: char, tail: string)
    requires ParseCat(tail).Some?
    ensures ParseCat(EscapeChar(c) + tail) == Some(Parsed(Cat(Lit(c), ParseCat(tail).value.regex), ParseCat(tail).value.rest))
  {
    hide ParseCat, ParseAtom, ParseAlt, Special;
    var whole := EscapeChar(c) + tail;
    AtomStep(c, tail);
    SpecialOnes();
    if Special(c) {
      assert whole == "\\" + [c] + tail;
    } else {
      assert whole == [c] + tail;
    }
    CatStep(whole);
  }

  lemma {:induction false} ParseEscaped(name: string, rest: string)
    requires ParseCat(rest).Some?
    ensures ParseCat(Escape(name) + rest) ==
      Some(Parsed(Literal(name, ParseCat(rest).value.regex), ParseCat(rest).value.rest))
  {
    hide ParseCat, ParseAtom, ParseAlt, Special, EscapeChar;
    if name == "" {
      assert Escape(name) + rest == rest;
    } else {
      ParseEscaped(name[1..], rest);
      CharStep(name[0], Escape(name[1..]) + rest);
      assert Escape(name) + rest == EscapeChar(name[0]) + (Escape(name[1..]) + rest);
    }
  }

  lemma SpecialOnes()
    ensures Special('|') && Special(')')
  {
  }

  lemma AltStep(p: string, first: Regex, bar: string)
    requires ParseCat(p) == Some(Parsed(first, bar)) && bar != ""
    ensures bar[0] != '|' ==> ParseAlt(p) == Some(Parsed(first, bar))
    ensures bar[0] == '|' && ParseAlt(bar[1..]).Some? ==>
      ParseAlt(p) == Some(Parsed(Alt(first, ParseAlt(bar[1..]).value.regex), ParseAlt(bar[1..]).value.rest))
  {
    hide ParseCat;
  }

  lemma CatStops(p: string)
    requires p != "" && (p[0] == '|' || p[0] == ')')
    ensures ParseCat(p) == Some(Parsed(Empty, p))
  {
  }

  lemma {:induction false} ParseNames(names: seq<string>, rest: string)
    requires names != [] && rest != "" && rest[0] == ')'
    ensures ParseAlt(JoinedByBar(names) + rest) == Some(Parsed(AnyOf(names), rest))
  {
    hide Escape, Literal, ParseCat, ParseAlt, ParseAtom;
    var whole := JoinedByBar(names) + rest;
    if |names| == 1 {
      CatStops(rest);
      ParseEscaped(names[0], rest);
      AltStep(whole, Literal(names[0], Empty), rest);
    } else {
      var others := JoinedByBar(names[1..]) + rest;
      ParseNames(names[1..], rest);
      CatStops("|" + others);
      ParseEscaped(names[0], "|" + others);
      assert whole == Escape(names[0]) + ("|" + others);
      assert ("|" + others)[1..] == others;
      AltStep(whole, Literal(names[0], Empty), "|" + others);
    }
  }

  lemma GroupStep(inner: string, regex: Regex, after: string)
    requires ParseAlt(inner) == Some(Parsed(regex, ")" + after))
    ensures ParseAtom("(?:" + inner) == Some(Parsed(regex, after))
  {
    hide ParseAlt, ParseCat;
    var group := "(?:" + inner;
    assert group[3..] == inner && (")" + after)[1..] == after;
    assert group[0] == '(';
  }

  lemma AnchorStep(after: string)
    ensures ParseAtom("^" + after) == Some(Parsed(Start, after)) && ParseAtom("$" + after) == Some(Parsed(End, after))
  {
    hide ParseAlt, ParseCat;
    assert ("^" + after)[1..] == after && ("$" + after)[1..] == after;
  }

  lemma EndParses()
    ensures ParseCat("$") == Some(Parsed(Cat(End, Empty), ""))
  {
    hide ParseAtom, ParseAlt;
    AnchorStep("");
    assert "$" == "$" + "";
  }

  /** A pattern that begins with `^` and goes on with something readable to its end. */
  lemma WholeParses(after: string, regex: Regex)
    requires ParseCat(after) == Some(Parsed(regex, ""))
    ensures Parse("^" + after) == Some(Cat(Start, regex))
  {
    hide ParseAtom;
    AnchorStep(after);
    CatStep("^" + after);
  }

  lemma PatternParses(names: seq<string>)
    requires names != []
    ensures Parse(Pattern(names)) == Some(Cat(Start, Cat(AnyOf(names), Cat(End, Empty))))
  {
    hide JoinedByBar, AnyOf, ParseAlt, ParseCat, ParseAtom, Parse;
    var inner := JoinedByBar(names) + ")$";
    ParseNames(names, ")$");
    assert ")$" == ")" + "$";
    GroupStep(inner, AnyOf(names), "$");
    EndParses();
    CatStep("(?:" + inner);
    WholeParses("(?:" + inner, Cat(AnyOf(names), Cat(End, Empty)));
    assert Pattern(names) == "^" + ("(?:" + inner);
  }

  lemma {:induction false} PlainIsEscaped(name: string)
    requires forall i :: 0 <= i < |name| ==> !Special(name[i])
    ensures Escape(name) == name
  {
    if name != "" {
      PlainIsEscaped(name[1..]);
    }
  }

  lemma SentinelParses()
    ensures Parse(Pattern([])) == Some(Cat(Start, Literal(NO_TEST, Cat(End, Empty))))
  {
    hide Literal, Escape, ParseAlt, ParseCat, ParseAtom, Parse;
    assert Escape(NO_TEST) == NO_TEST by {
      SentinelIsPlain();
    }
    EndParses();
    ParseEscaped(NO_TEST, "$");
    WholeParses(NO_TEST + "$", Literal(NO_TEST, Cat(End, Empty)));
    assert Pattern([]) == "^" + (NO_TEST + "$");
  }

  lemma SentinelIsPlain()
    ensures Escape(NO_TEST) == NO_TEST
  {
    hide Escape, Special;
    forall i | 0 <= i < |NO_TEST| ensures !Special(NO_TEST[i]) {
      LettersArePlain(NO_TEST[i]);
    }
    PlainIsEscaped(NO_TEST);
  }

  lemma LettersArePlain(c: char)
    requires 'A' <= c <= 'Z' || c == '_'
    ensures !Special(c)
  {
  }

  lemma CatSpans(a: Regex, b: Regex, s: string, i: nat, j: nat) returns (k: nat)
    requires i <= |s| && j <= |s| && Spans(Cat(a, b), s, i, j)
    ensures k <= |s| && Spans(a, s, i, k) && Spans(b, s, k, j)
  {
    k :| k <= |s| && Spans(a, s, i, k) && Spans(b, s, k, j);
  }

  lemma {:induction false} LiteralSpans(name: string, after: Regex, s: string, i: nat, j: nat)
    requires i <= |s| && j <= |s|
    ensures Spans(Literal(name, after), s, i, j) <==>
      i + |name| <= |s| && s[i..i + |name|] == name && Spans(after, s, i + |name|, j)
  {
    if name != "" {
      if i < |s| {
        LiteralSpans(name[1..], after, s, i + 1, j);
        assert Spans(Lit(name[0]), s, i, i + 1) <==> s[i] == name[0];
        assert i + |name| <= |s| ==> s[i..i + |name|] == [s[i]] + s[i + 1..i + |name|];
      }
      assert name == [name[0]] + name[1..];
    }
  }

  lemma {:induction false} AnyOfSpans(names: seq<string>, s: string, i: nat, j: nat)
    requires names != [] && i <= j <= |s|
    ensures Spans(AnyOf(names), s, i, j) <==> s[i..j] in names
  {
    LiteralSpans(names[0], Empty, s, i, j);
    if |names| > 1 {
      AnyOfSpans(names[1..], s, i, j);
      assert names == [names[0]] + names[1..];
    }
  }

  /** Whatever characters the names hold, the pattern of a non-empty list finds exactly the names
      of the list: no other name, no part of one, and none of them is lost. */
  lemma PatternFindsExactlyTheNames(names: seq<string>, s: string)
    requires names != []
    ensures Runs(Pattern(names), s) <==> s in names
  {
    hide Pattern, AnyOf, Parse;
    PatternParses(names);
    var core := AnyOf(names);
    var ending := Cat(End, Empty);
    AnyOfSpans(names, s, 0, |s|);
    assert s[0..|s|] == s;
    if s in names {
      assert Spans(End, s, |s|, |s|) && Spans(Empty, s, |s|, |s|);
      assert Spans(ending, s, |s|, |s|);
      assert Spans(Cat(core, ending), s, 0, |s|);
      assert Spans(Start, s, 0, 0);
      assert Spans(Cat(Start, Cat(core, ending)), s, 0, |s|);
    }
    if Found(Cat(Start, Cat(core, ending)), s) {
      var i: nat, j: nat :| i <= |s| && j <= |s| && Spans(Cat(Start, Cat(core, ending)), s, i, j);
      var k := CatSpans(Start, Cat(core, ending), s, i, j);
      var l := CatSpans(core, ending, s, k, j);
      var m := CatSpans(End, Empty, s, l, j);
      assert k == 0 && l == |s|;
    }
  }

  /** The pattern of an empty list finds only the sentinel. */
  lemma SentinelFindsNothingElse(s: string)
    ensures Runs(Pattern([]), s) <==> s == NO_TEST
  {
    hide Pattern, Parse, Literal;
    SentinelParses();
    var ending := Cat(End, Empty);
    var core := Literal(NO_TEST, ending);
    if s == NO_TEST {
      assert s[0..|s|] == s;
      assert Spans(End, s, |s|, |s|) && Spans(Empty, s, |s|, |s|);
      assert Spans(ending, s, |s|, |s|);
      LiteralSpans(NO_TEST, ending, s, 0, |s|);
      assert Spans(Start, s, 0, 0);
      assert Spans(Cat(Start, core), s, 0, |s|);
    }
    if Found(Cat(Start, core), s) {
      var i: nat, j: nat :| i <= |s| && j <= |s| && Spans(Cat(Start, core), s, i, j);
      var k := CatSpans(Start, core, s, i, j);
      LiteralSpans(NO_TEST, ending, s, k, j);
      var m := CatSpans(End, Empty, s, |NO_TEST|, j);
      assert k == 0 && |s| == |NO_TEST|;
      assert s[0..|s|] == s;
    }
  }
}
