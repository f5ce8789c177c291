/** Decimal numbers and colon-separated fields, printed and read back. */
module Text {
  import opened Base

  function DigitOf(d: nat): char
    requires d < 10
  {
    ('0' as int + d) as char
  }

  predicate IsDigit(c: char) {
    '0' <= c <= '9'
  }

  /** `%d` of a natural number. */
  function Digits(n: nat): (s: string)
    ensures s != "" && forall i :: 0 <= i < |s| ==> IsDigit(s[i])
    ensures s[0] == '0' <==> n == 0
  {
    if n < 10 then [DigitOf(n)] else Digits(n / 10) + [DigitOf(n % 10)]
  }

  /** `%d`. */
  function Decimal(i: int): string {
    if i < 0 then "-" + Digits(-i) else Digits(i)
  }

  /** `%02d`. */
  function TwoDigits(i: int): string {
    var s := Decimal(i);
    if |s| == 1 then "0" + s else s
  }

  function ValueOf(s: string): nat
    requires forall i :: 0 <= i < |s| ==> IsDigit(s[i])
  {
    if s == "" then 0
    else
      assert IsDigit(s[|s| - 1]);
      ValueOf(s[..|s| - 1]) * 10 + (s[|s| - 1] as int - '0' as int)
  }

  predicate AllDigits(s: string) {
    s != "" && forall i :: 0 <= i < |s| ==> IsDigit(s[i])
  }

  /** The integer a decimal denotes. */
  function ReadDecimal(s: string): Option<int> {
    if AllDigits(s) then Some(ValueOf(s))
    else if s != "" && s[0] == '-' && AllDigits(s[1..]) then
      var v: int := ValueOf(s[1..]);
      Some(-v)
    else None
  }

  lemma {:induction false} ReadDigits(n: nat)
    ensures ValueOf(Digits(n)) == n
  {
    if n >= 10 {
      ReadDigits(n / 10);
      var s := Digits(n);
      assert s[..|s| - 1] == Digits(n / 10) && s[|s| - 1] == DigitOf(n % 10);
    } else {
      assert Digits(n)[..0] == "";
    }
  }

  lemma ReadPrinted(i: int)
    ensures ReadDecimal(Decimal(i)) == Some(i)
  {
    if i < 0 {
      ReadDigits(-i);
      assert Decimal(i)[1..] == Digits(-i);
    } else {
      ReadDigits(i);
    }
  }

  /** The other way round: numerals without a leading zero are what is printed. */
  lemma {:induction false} PrintRead(s: string)
    requires AllDigits(s) && (s[0] == '0' ==> |s| == 1)
    ensures Digits(ValueOf(s)) == s
  {
    var front, last := s[..|s| - 1], s[|s| - 1] as int - '0' as int;
    assert s == front + [s[|s| - 1]];
    if |s| == 1 {
      assert ValueOf(front) == 0;
    } else {
      PrintRead(front);
      LeadingDigit(front);
      assert ValueOf(s) / 10 == ValueOf(front) && ValueOf(s) % 10 == last;
    }
  }

  lemma {:induction false} LeadingDigit(s: string)
    requires AllDigits(s) && s[0] != '0'
    ensures ValueOf(s) > 0
  {
    if |s| > 1 {
      LeadingDigit(s[..|s| - 1]);
    } else {
      assert s[..0] == "";
    }
  }

  // ---------- fields ----------

  predicate NoColon(s: string) {
    ':' !in s
  }

  function JoinColon(fields: seq<string>): string {
    if fields == [] then ""
    else if |fields| == 1 then fields[0]
    else fields[0] + ":" + JoinColon(fields[1..])
  }

  lemma JoinCons(first: string, rest: seq<string>)
    requires rest != []
    ensures JoinColon([first] + rest) == first + ":" + JoinColon(rest)
  {
    assert ([first] + rest)[1..] == rest;
  }

  /** `split(":")`. */
  function SplitColon(s: string): (fields: seq<string>)
    ensures fields != [] && forall i :: 0 <= i < |fields| ==> NoColon(fields[i])
  {
    if s == "" then [""]
    else if s[0] == ':' then [""] + SplitColon(s[1..])
    else
      var rest := SplitColon(s[1..]);
      [[s[0]] + rest[0]] + rest[1..]
  }

  lemma {:induction false} SplitFirst(field: string, rest: string)
    requires NoColon(field)
    ensures SplitColon(field) == [field]
    ensures SplitColon(field + ":" + rest) == [field] + SplitColon(rest)
  {
    if field == "" {
      assert "" + ":" + rest == ":" + rest && (":" + rest)[1..] == rest;
    } else {
      SplitFirst(field[1..], rest);
      assert (field + ":" + rest)[1..] == field[1..] + ":" + rest;
      assert [field[0]] + field[1..] == field;
    }
  }

  lemma {:induction false} SplitJoin(fields: seq<string>)
    requires fields != [] && forall i :: 0 <= i < |fields| ==> NoColon(fields[i])
    ensures SplitColon(JoinColon(fields)) == fields
  {
    if |fields| == 1 {
      SplitFirst(fields[0], "");
    } else {
      SplitJoin(fields[1..]);
      SplitFirst(fields[0], JoinColon(fields[1..]));
    }
  }

  /** One more character in front: a colon starts a new field, anything else extends the first. */
  lemma JoinAfterColon(s: string)
    requires s != "" && s[0] == ':' && JoinColon(SplitColon(s[1..])) == s[1..]
    ensures JoinColon(SplitColon(s)) == s
  {
    assert SplitColon(s)[1..] == SplitColon(s[1..]);
    assert s == "" + ":" + s[1..];
  }

  lemma Regroup(a: string, b: string, c: string, d: string)
    ensures a + b + c + d == a + (b + c + d)
  {
  }

  lemma JoinExtended(c: char, first: string, rest: seq<string>)
    ensures JoinColon([[c] + first] + rest) == [c] + JoinColon([first] + rest)
  {
    if rest == [] {
      assert [[c] + first] + rest == [[c] + first] && [first] + rest == [first];
    } else {
      JoinCons(first, rest);
      JoinCons([c] + first, rest);
      hide JoinColon;
      Regroup([c], first, ":", JoinColon(rest));
    }
  }

  lemma {:induction false} JoinSplit(s: string)
    ensures JoinColon(SplitColon(s)) == s
  {
    if s == "" {
    } else if s[0] == ':' {
      JoinSplit(s[1..]);
      JoinAfterColon(s);
    } else {
      var rest := SplitColon(s[1..]);
      JoinSplit(s[1..]);
      JoinExtended(s[0], rest[0], rest[1..]);
      assert [rest[0]] + rest[1..] == rest;
      hide JoinColon;
      assert s == [s[0]] + s[1..];
    }
  }

  lemma DecimalFields(i: int)
    ensures NoColon(Decimal(i)) && Decimal(i) != "" && Decimal(i)[0] != 'c'
  {
    var n := if i < 0 then -i else i;
    assert forall k :: 0 <= k < |Digits(n)| ==> IsDigit(Digits(n)[k]);
  }
}
