/** How Python prints a list of strings, and why no printed list ends in another. */
module Repr {
  import opened Wrappers

  /** Single quotes, unless the text holds those and no double ones. */
  function QuoteOf(s: string): char {
    if '\'' in s && '\"' !in s then '\"' else '\''
  }

  /** Latin-1 as Python classifies it; everything beyond counts as printable. */
  predicate IsPrintable(c: char) {
    ' ' <= c <= '~' || ('\U{A1}' <= c && c != '\U{AD}')
  }

  /** A quote inside a text has to be escaped only if the text holds quotes of both kinds. */
  lemma QuotesAreRarelyEscaped(s: string)
    ensures QuoteOf(s) in s ==> '\'' in s && '\"' in s
  {
  }

  const HEX: string := "0123456789abcdef"

  function Hex(c: char): string
    requires c < '\U{100}'
  {
    [HEX[c as int / 16], HEX[c as int % 16]]
  }

  function Escape(c: char, quote: char): (code: string)
    ensures code != ""
  {
    if c == '\\' || c == quote then ['\\', c]
    else if c == '\n' then "\\n"
    else if c == '\r' then "\\r"
    else if c == '\t' then "\\t"
    else if IsPrintable(c) then [c]
    else "\\x" + Hex(c)
  }

  function Body(s: string, quote: char): string {
    if s == "" then "" else Escape(s[0], quote) + Body(s[1..], quote)
  }

  function Repr(s: string): string { [QuoteOf(s)] + Body(s, QuoteOf(s)) + [QuoteOf(s)] }

  function Items(items: seq<string>): string {
    if items == [] then ""
    else if |items| == 1 then Repr(items[0])
    else Items(items[..|items| - 1]) + ", " + Repr(items[|items| - 1])
  }

  function ListText(items: seq<string>): string { "[" + Items(items) + "]" }

  function OptionalListText(items: Option<seq<string>>): string {
    if items.Some? then ListText(items.value) else "None"
  }

  // --------------------------------------------------------------- one item

  predicate IsQuote(c: char) { c == '\'' || c == '\"' }

  lemma HexIsInjective(c: char, d: char)
    requires c < '\U{100}' && d < '\U{100}' && Hex(c) == Hex(d)
    ensures c == d
  {
    HexDigitsDiffer(c as int / 16, d as int / 16);
    HexDigitsDiffer(c as int % 16, d as int % 16);
    assert Hex(c)[0] == Hex(d)[0] && Hex(c)[1] == Hex(d)[1];
  }

  lemma HexDigitsDiffer(m: nat, n: nat)
    requires m < 16 && n < 16
    ensures HEX[m] == HEX[n] ==> m == n
    ensures !IsQuote(HEX[m])
  {
  }

  /** Codes are prefix-free: where two escaped texts agree, their first characters do. */
  lemma EscapeIsPrefixFree(c: char, s: string, d: char, t: string, quote: char)
    requires IsQuote(quote) && Escape(c, quote) + s == Escape(d, quote) + t
    ensures c == d && s == t
  {
    var x, y := Escape(c, quote), Escape(d, quote);
    assert (x + s)[0] == (y + t)[0] && x[0] == (x + s)[0] && y[0] == (y + t)[0];
    if |x| > 1 && |y| > 1 {
      assert x[1] == (x + s)[1] && y[1] == (y + t)[1];
      if |x| == 4 && |y| == 4 {
        assert x[2..] == (x + s)[2..4] == (y + t)[2..4] == y[2..];
        assert x[2..] == Hex(c) && y[2..] == Hex(d);
        HexIsInjective(c, d);
      }
    }
    assert |x| == |y|;
    assert s == (x + s)[|x|..] && t == (y + t)[|y|..];
  }

  lemma {:induction false} BodyIsInjective(s: string, t: string, quote: char)
    requires IsQuote(quote) && Body(s, quote) == Body(t, quote)
    ensures s == t
  {
    if s != "" && t != "" {
      EscapeIsPrefixFree(s[0], Body(s[1..], quote), t[0], Body(t[1..], quote), quote);
      BodyIsInjective(s[1..], t[1..], quote);
    }
  }

  /** Inside a printed text a quote always follows a backslash. */
  lemma {:induction false} QuotesAreEscaped(s: string, quote: char, i: nat)
    requires IsQuote(quote) && i < |Body(s, quote)| && Body(s, quote)[i] == quote
    ensures 0 < i && Body(s, quote)[i - 1] == '\\'
  {
    var first, rest := Escape(s[0], quote), Body(s[1..], quote);
    if i >= |first| {
      QuotesAreEscaped(s[1..], quote, i - |first|);
    } else if |first| == 4 {
      assert first == "\\x" + Hex(s[0]);
      HexDigitsDiffer(s[0] as int / 16, s[0] as int % 16);
      HexDigitsDiffer(s[0] as int % 16, s[0] as int / 16);
    }
  }

  // --------------------------------------------------- reading from the right

  ghost predicate EndsPlainly(s: string) { s != "" && s[|s| - 1] != '\\' }

  /** Its closing quote fixes where a printed text begins, when no backslash precedes it. */
  lemma NoShorterRepr(left: string, x: string, right: string, y: string)
    requires EndsPlainly(left) && left + Repr(x) == right + Repr(y)
    ensures |left| <= |right|
  {
    var whole, q := left + Repr(x), QuoteOf(y);
    assert whole[|whole| - 1] == QuoteOf(x) && whole[|whole| - 1] == q;
    if |left| > |right| {
      var i := |left| - |right| - 1;
      assert whole[|left|] == Repr(x)[0] == q;
      assert whole[|left|] == Repr(y)[i + 1] == Body(y, q)[i];
      assert 0 < i ==> whole[|left| - 1] == Repr(y)[i] == Body(y, q)[i - 1];
      QuotesAreEscaped(y, q, i);
    }
  }

  lemma ReprFromTheRight(left: string, x: string, right: string, y: string)
    requires EndsPlainly(left) && EndsPlainly(right) && left + Repr(x) == right + Repr(y)
    ensures left == right && x == y
  {
    NoShorterRepr(left, x, right, y);
    NoShorterRepr(right, y, left, x);
    assert left == (left + Repr(x))[..|left|] == (right + Repr(y))[..|left|] == right;
    assert Repr(x) == (left + Repr(x))[|left|..] == (right + Repr(y))[|left|..] == Repr(y);
    assert Repr(x)[0] == QuoteOf(x) && Repr(y)[0] == QuoteOf(y);
    assert Repr(x)[1..|Repr(x)| - 1] == Body(x, QuoteOf(x)) && Repr(y)[1..|Repr(y)| - 1] == Body(y, QuoteOf(y));
    BodyIsInjective(x, y, QuoteOf(x));
  }

  /** What stands before the last item. */
  function Front(items: seq<string>): string
    requires items != []
  {
    if |items| == 1 then "" else Items(items[..|items| - 1]) + ", "
  }

  lemma ItemsSplit(items: seq<string>)
    requires items != []
    ensures Items(items) == Front(items) + Repr(items[|items| - 1])
    ensures |items| > 1 ==> Front(items) != "" && Front(items)[|Front(items)| - 1] == ' '
  {
  }

  /** No printed list ends in another one. */
  lemma {:induction false} ItemsFromTheRight(x: string, a: seq<string>, b: seq<string>)
    requires x + "[" + Items(a) == "[" + Items(b)
    ensures x == "" && a == b
    decreases |a|
  {
    hide Repr;
    if a == [] || b == [] {
      EmptyFromTheRight(x, a, b);
    } else {
      ItemsSplit(a);
      ItemsSplit(b);
      hide Items;
      var i, j := a[|a| - 1], b[|b| - 1];
      var left, right := x + "[" + Front(a), "[" + Front(b);
      assert left + Repr(i) == x + "[" + Items(a) && right + Repr(j) == "[" + Items(b);
      ReprFromTheRight(left, i, right, j);
      FrontsFromTheRight(x, a, b);
      if |a| > 1 {
        ItemsFromTheRight(x, a[..|a| - 1], b[..|b| - 1]);
      }
    }
  }

  lemma FrontsFromTheRight(x: string, a: seq<string>, b: seq<string>)
    requires a != [] && b != [] && x + "[" + Front(a) == "[" + Front(b)
    ensures |a| == 1 <==> |b| == 1
    ensures |a| == 1 ==> x == ""
    ensures |a| > 1 && |b| > 1 ==> x + "[" + Items(a[..|a| - 1]) == "[" + Items(b[..|b| - 1])
  {
    ItemsSplit(a);
    ItemsSplit(b);
    var left, right := x + "[" + Front(a), "[" + Front(b);
    assert left[|left| - 1] == right[|right| - 1];
    if |a| > 1 && |b| > 1 {
      hide Items;
      assert left[..|left| - 2] == x + "[" + Items(a[..|a| - 1]);
      assert right[..|right| - 2] == "[" + Items(b[..|b| - 1]);
    }
  }

  lemma EmptyFromTheRight(x: string, a: seq<string>, b: seq<string>)
    requires x + "[" + Items(a) == "[" + Items(b) && (a == [] || b == [])
    ensures x == "" && a == b
  {
    var left, right := x + "[" + Items(a), "[" + Items(b);
    assert left[|left| - 1] == right[|right| - 1];
    if a != [] {
      ItemsSplit(a);
    }
    if b != [] {
      ItemsSplit(b);
    }
  }

  /** No printed optional list ends in another one; in particular the text tells the list. */
  lemma ListTextsAreSuffixFree(x: string, a: Option<seq<string>>, b: Option<seq<string>>)
    requires x + OptionalListText(a) == OptionalListText(b)
    ensures x == "" && a == b
  {
    var left, right := x + OptionalListText(a), OptionalListText(b);
    hide Items;
    assert left[|left| - 1] == right[|right| - 1];
    if a.Some? {
      assert left[..|left| - 1] == x + "[" + Items(a.value) && right[..|right| - 1] == "[" + Items(b.value);
      ItemsFromTheRight(x, a.value, b.value);
    }
  }
}
