/** The textual list of physical blocks that every storage operation reads and writes back. */
module BlockList {

  predicate Digit(c: char) {
    '0' <= c <= '9'
  }

  function DigitOf(n: nat): (c: char)
    requires n < 10
    ensures Digit(c) && ValueOf(c) == n
  {
    ['0', '1', '2', '3', '4', '5', '6', '7', '8', '9'][n]
  }

  function ValueOf(c: char): (n: nat)
    requires Digit(c)
    ensures n < 10
  {
    c as int - '0' as int
  }

  /** Decimal digits, the most significant first. */
  function Digits(n: nat): (s: string) {
    if n < 10 then [DigitOf(n)] else Digits(n / 10) + [DigitOf(n % 10)]
  }

  function Itoa(v: int): (s: string) {
    if v < 0 then ['-'] + Digits(-v) else Digits(v)
  }

  predicate AllDigits(s: string) {
    forall i :: 0 <= i < |s| ==> Digit(s[i])
  }

  function Number(s: string): nat
    requires AllDigits(s)
  {
    if s == [] then 0 else Number(s[..|s| - 1]) * 10 + ValueOf(s[|s| - 1])
  }

  /** The digits the text starts with. */
  function Leading(s: string): (d: string)
    ensures AllDigits(d)
  {
    if s == [] || !Digit(s[0]) then [] else [s[0]] + Leading(s[1..])
  }

  predicate Blank(c: char) {
    c == ' ' || '\t' <= c <= '\r'
  }

  /** Blanks, a sign, digits; whatever follows is ignored. */
  function Atoi(s: string): int {
    if s == [] then 0
    else if Blank(s[0]) then Atoi(s[1..])
    else if s[0] == '-' then -(Number(Leading(s[1..])) as int)
    else if s[0] == '+' then Number(Leading(s[1..]))
    else Number(Leading(s))
  }

  /** Numbers separated by commas. */
  function Joined(list: seq<int>): string {
    if list == [] then []
    else if |list| == 1 then Itoa(list[0])
    else Itoa(list[0]) + ([','] + Joined(list[1..]))
  }

  function Printed(list: seq<int>): string {
    ['['] + Joined(list) + [']']
  }

  /** Where the first comma is, or the end. */
  function Comma(s: string): (k: nat)
    ensures k <= |s| && (k < |s| ==> s[k] == ',') && forall i :: 0 <= i < k ==> s[i] != ','
  {
    if s == [] || s[0] == ',' then 0 else 1 + Comma(s[1..])
  }

  /** The pieces between commas; an empty text has none. */
  function Split(s: string): seq<string>
    decreases |s|
  {
    if s == [] then []
    else if Comma(s) == |s| then [s]
    else [s[..Comma(s)]] + Split(s[Comma(s) + 1..])
  }

  function Values(tokens: seq<string>): (r: seq<int>)
    ensures |r| == |tokens| && forall i :: 0 <= i < |r| ==> r[i] == Atoi(tokens[i])
  {
    if tokens == [] then [] else [Atoi(tokens[0])] + Values(tokens[1..])
  }

  /** Without its first and last characters. */
  function Inner(s: string): string
    requires s != []
  {
    if |s| == 1 then [] else s[1..|s| - 1]
  }

  function Parsed(s: string): seq<int>
    requires s != []
  {
    Values(Split(Inner(s)))
  }

  // ------------------------------------------------------------------- numbers

  lemma {:induction false} DigitsNumber(n: nat)
    ensures Digits(n) != [] && AllDigits(Digits(n)) && Number(Digits(n)) == n
  {
    if n >= 10 {
      DigitsNumber(n / 10);
      var s := Digits(n);
      assert s[..|s| - 1] == Digits(n / 10);
    }
  }

  lemma {:induction false} LeadingAll(s: string)
    requires AllDigits(s)
    ensures Leading(s) == s
  {
    if s != [] {
      assert AllDigits(s[1..]);
      LeadingAll(s[1..]);
    }
  }

  /** Reading a printed number gives it back, whatever its sign; and it holds no comma. */
  lemma AtoiItoa(v: int)
    ensures Atoi(Itoa(v)) == v
    ensures Itoa(v) != [] && forall i :: 0 <= i < |Itoa(v)| ==> Itoa(v)[i] != ','
  {
    var n := if v < 0 then -v else v;
    DigitsNumber(n);
    LeadingAll(Digits(n));
    if v < 0 { assert Itoa(v)[1..] == Digits(n); }
  }

  // --------------------------------------------------------------------- lists

  lemma CommaAt(a: string, b: string)
    requires forall i :: 0 <= i < |a| ==> a[i] != ','
    ensures Comma(a) == |a| && Comma(a + ([','] + b)) == |a|
  {
    var s := a + ([','] + b);
    assert s[|a|] == ',';
    assert forall i :: 0 <= i < |a| ==> s[i] == a[i];
  }

  lemma SplitOne(first: string)
    requires first != [] && forall i :: 0 <= i < |first| ==> first[i] != ','
    ensures Split(first) == [first]
  {
    CommaAt(first, []);
    hide Comma;
  }

  lemma SplitMore(first: string, rest: string)
    requires first != [] && forall i :: 0 <= i < |first| ==> first[i] != ','
    ensures Split(first + ([','] + rest)) == [first] + Split(rest)
  {
    var s := first + ([','] + rest);
    CommaAt(first, rest);
    Around(first, rest);
    hide Comma;
    assert Split(s) == [s[..|first|]] + Split(s[|first| + 1..]);
    hide Split;
  }

  lemma Around(first: string, rest: string)
    ensures var s := first + ([','] + rest); |s| > |first| && s[..|first|] == first && s[|first| + 1..] == rest
  {
  }

  lemma {:induction false} SplitJoined(list: seq<int>)
    ensures |Split(Joined(list))| == |list|
    ensures forall i :: 0 <= i < |list| ==> Split(Joined(list))[i] == Itoa(list[i])
  {
    if list != [] {
      var first, rest := Itoa(list[0]), Joined(list[1..]);
      assert Joined(list) == if |list| == 1 then first else first + ([','] + rest);
      hide *;
      AtoiItoa(list[0]);
      if |list| == 1 {
        SplitOne(first);
      } else {
        SplitMore(first, rest);
        SplitJoined(list[1..]);
      }
    }
  }

  /** Parsing a printed list gives it back: any list, the empty one and negative numbers included. */
  lemma ParsedPrinted(list: seq<int>)
    ensures Parsed(Printed(list)) == list
  {
    var s := Printed(list);
    assert Inner(s) == Joined(list);
    SplitJoined(list);
    forall i | 0 <= i < |list| ensures Parsed(s)[i] == list[i] { AtoiItoa(list[i]); }
  }

  /** Different lists never print alike. */
  lemma PrintedInjective(a: seq<int>, b: seq<int>)
    ensures Printed(a) == Printed(b) ==> a == b
  {
    ParsedPrinted(a);
    ParsedPrinted(b);
  }

  lemma {:induction false} JoinedAppend(list: seq<int>, v: int)
    ensures Joined(list + [v]) == if list == [] then Itoa(v) else Joined(list) + [','] + Itoa(v)
  {
    hide *;
    if list == [] {
      assert list + [v] == [v];
      JoinedOne(v);
    } else {
      assert list == [list[0]] + list[1..];
      assert list + [v] == [list[0]] + (list[1..] + [v]);
      JoinedAppend(list[1..], v);
      JoinedCons(list[0], list[1..] + [v]);
      if list[1..] == [] {
        assert list == [list[0]];
        JoinedOne(list[0]);
        Regroup(Itoa(list[0]), [], [','], Itoa(v));
      } else {
        JoinedCons(list[0], list[1..]);
        Regroup(Itoa(list[0]), [','] + Joined(list[1..]), [','], Itoa(v));
        Regroup([','], Joined(list[1..]), [','], Itoa(v));
      }
    }
  }

  lemma JoinedOne(v: int)
    ensures Joined([v]) == Itoa(v)
  {
  }

  lemma JoinedCons(v: int, more: seq<int>)
    requires more != []
    ensures Joined([v] + more) == Itoa(v) + ([','] + Joined(more))
  {
    assert ([v] + more)[1..] == more;
    hide Itoa;
  }

  lemma Regroup(a: string, b: string, c: string, d: string)
    ensures a + (b + c + d) == a + b + c + d && a + (c + d) == a + c + d
  {
  }

  // ------------------------------------------------------------------- methods

  lemma StartsPrinted(list: seq<int>)
    ensures ['['] == ['['] + Joined(list[..0])
  {
    assert list[..0] == [];
  }

  /** Prints by growing a string. */
  method Print(list: seq<int>) returns (text: string)
    ensures text == Printed(list)
    ensures Parsed(text) == list
  {
    ParsedPrinted(list);
    StartsPrinted(list);
    hide Joined, Itoa, Parsed;
    text := ['['];
    var i := 0;
    while i < |list|
      invariant 0 <= i <= |list|
      invariant text == ['['] + Joined(list[..i])
    {
      PrintedNext(list, i);
      if i > 0 { text := text + [',']; }
      text := text + Itoa(list[i]);
      i := i + 1;
    }
    assert list[..i] == list;
    text := text + [']'];
  }

  lemma PrintedNext(list: seq<int>, i: nat)
    requires i < |list|
    ensures ['['] + Joined(list[..i + 1]) ==
            ['['] + Joined(list[..i]) + (if i > 0 then [','] else []) + Itoa(list[i])
  {
    hide *;
    JoinedAppend(list[..i], list[i]);
    assert list[..i + 1] == list[..i] + [list[i]];
    if i == 0 {
      JoinedNone();
      assert list[..0] == [] && ['['] + [] + [] + Itoa(list[i]) == ['['] + Itoa(list[i]);
    } else {
      Regroup(['['], Joined(list[..i]), [','], Itoa(list[i]));
    }
  }

  lemma JoinedNone()
    ensures Joined([]) == []
  {
  }

  lemma OnlyParse(text: string)
    requires text != []
    ensures forall l: seq<int> :: text == Printed(l) ==> Parsed(text) == l
  {
    forall l: seq<int> | text == Printed(l) ensures Parsed(text) == l { ParsedPrinted(l); }
  }

  /** Parses by dropping the brackets, splitting and reading piece by piece. */
  method Parse(text: string) returns (list: seq<int>)
    requires text != []
    ensures list == Parsed(text)
    ensures forall l: seq<int> :: text == Printed(l) ==> list == l
  {
    OnlyParse(text);
    var tokens := Split(Inner(text));
    ghost var values := Values(tokens);
    assert values == Parsed(text) && forall k :: 0 <= k < |tokens| ==> values[k] == Atoi(tokens[k]);
    hide *;
    list := [];
    var i := 0;
    while i < |tokens|
      invariant 0 <= i <= |tokens|
      invariant |values| == |tokens| && list == values[..i]
    {
      list := list + [Atoi(tokens[i])];
      i := i + 1;
    }
  }

  /** The form of every text: brackets around numbers, each after the first preceded by a comma. */
  lemma PrintedGrows(list: seq<int>, x: int)
    ensures Printed([]) == "[]"
    ensures Printed(list + [x]) == (if list == [] then "[" else Printed(list)[..|Printed(list)| - 1] + ",") + Itoa(x) + "]"
  {
    JoinedAppend(list, x);
    PrintedCut(list);
    hide Itoa, Joined;
    assert Printed(list + [x]) == "[" + Joined(list + [x]) + "]";
    if list != [] { Bracketed(Joined(list), Itoa(x)); }
  }

  lemma PrintedCut(list: seq<int>)
    ensures Printed(list)[..|Printed(list)| - 1] == "[" + Joined(list) && Printed([]) == "[]"
  {
    hide Itoa;
  }

  lemma Bracketed(a: string, b: string)
    ensures "[" + (a + "," + b) + "]" == ("[" + a) + "," + b + "]"
  {
  }

  /** A number is written in decimal, after a minus sign when it is negative. */
  lemma ItoaForm(v: int)
    ensures 0 <= v < 10 ==> Itoa(v) == ["0123456789"[v]]
    ensures v >= 10 ==> Itoa(v) == Itoa(v / 10) + Itoa(v % 10)
    ensures v < 0 ==> Itoa(v) == "-" + Itoa(-v)
  {
  }
}
