/** String operations the gateway's keys are built from: whitespace splitting and
    joining, splitting at the last bars, partition, and decimal integers. */
module Text {
  import opened Wrappers

  // ------------------------------------------------------------ whitespace

  /** The characters Python's argument-free split and strip treat as blank. */
  predicate IsSpace(c: char) {
    || '\t' <= c <= '\r'
    || '\U{1C}' <= c <= ' '
    || c in ['\U{85}', '\U{A0}', '\U{1680}', '\U{2028}', '\U{2029}', '\U{202F}', '\U{205F}', '\U{3000}']
    || '\U{2000}' <= c <= '\U{200A}'
  }

  /** Length of the leading run of non-blank characters. */
  function WordEnd(s: string): (n: nat)
    ensures n <= |s|
    ensures forall i :: 0 <= i < n ==> !IsSpace(s[i])
    ensures n < |s| ==> IsSpace(s[n])
  {
    if s == [] || IsSpace(s[0]) then 0 else 1 + WordEnd(s[1..])
  }

  /** The maximal blank-free runs of `s`, in order. */
  function Words(s: string): seq<string>
    decreases |s|
  {
    if s == [] then []
    else if IsSpace(s[0]) then Words(s[1..])
    else [s[..WordEnd(s)]] + Words(s[WordEnd(s)..])
  }

  function StripLeft(s: string): string {
    if s != [] && IsSpace(s[0]) then StripLeft(s[1..]) else s
  }

  function StripRight(s: string): string {
    if s != [] && IsSpace(s[|s| - 1]) then StripRight(s[..|s| - 1]) else s
  }

  function Join(separator: string, parts: seq<string>): string {
    if |parts| == 0 then ""
    else if |parts| == 1 then parts[0]
    else parts[0] + separator + Join(separator, parts[1..])
  }

  /** Joined with nothing between them, parts run together. */
  lemma {:induction false} PlainJoinRunsTogether(parts: seq<string>, last: string)
    ensures Join("", parts + [last]) == Join("", parts) + last
    decreases |parts|
  {
    if parts == [] {
      assert parts + [last] == [last];
    } else {
      assert (parts + [last])[0] == parts[0] && (parts + [last])[1..] == parts[1..] + [last];
      PlainJoinRunsTogether(parts[1..], last);
    }
  }

  predicate IsWord(w: string) {
    w != [] && forall i :: 0 <= i < |w| ==> !IsSpace(w[i])
  }

  lemma {:induction false} WordEndIs(s: string, n: nat)
    requires n <= |s| && (forall i :: 0 <= i < n ==> !IsSpace(s[i])) && (n < |s| ==> IsSpace(s[n]))
    ensures WordEnd(s) == n
  {
    if n > 0 {
      WordEndIs(s[1..], n - 1);
    }
  }

  lemma {:induction false} WordsAreWords(s: string)
    ensures forall w :: w in Words(s) ==> IsWord(w)
    decreases |s|
  {
    if s != [] {
      WordsAreWords(if IsSpace(s[0]) then s[1..] else s[WordEnd(s)..]);
    }
  }

  /** A name put right in front of a text extends its first word. */
  lemma WordsAfterName(name: string, rest: string)
    requires IsWord(name) && rest != "" && !IsSpace(rest[0])
    ensures Words(rest) != [] && Words(rest)[0] != "" && Words(rest)[0][0] == rest[0]
    ensures Words(name + rest) == [name + Words(rest)[0]] + Words(rest)[1..]
  {
    var s, k := name + rest, WordEnd(rest);
    WordEndIs(s, |name| + k);
    assert s[..|name| + k] == name + rest[..k] && s[|name| + k..] == rest[k..];
  }

  /** A blank separates: the words of the parts are the words of the whole. */
  lemma {:induction false} WordsSplitAtBlank(a: string, c: char, b: string)
    requires IsSpace(c)
    ensures Words(a + [c] + b) == Words(a) + Words(b)
    decreases |a|
  {
    hide IsSpace, WordEnd, Words;
    var s := a + [c] + b;
    assert ([c] + b)[1..] == b;
    UnfoldWords([c] + b);
    UnfoldWords(a);
    if a == [] {
      assert s == [c] + b;
    } else {
      UnfoldWords(s);
      if IsSpace(a[0]) {
        assert s[1..] == a[1..] + [c] + b;
        WordsSplitAtBlank(a[1..], c, b);
      } else {
        var k := WordEnd(a);
        WordEndIs(s, k);
        assert s[..k] == a[..k];
        if k == |a| {
          assert s[k..] == [c] + b && a[k..] == [];
          UnfoldWords([]);
        } else {
          assert s[k..] == a[k..] + [c] + b;
          WordsSplitAtBlank(a[k..], c, b);
        }
      }
    }
  }

  lemma UnfoldWords(s: string)
    ensures Words(s) == if s == [] then []
                        else if IsSpace(s[0]) then Words(s[1..])
                        else [s[..WordEnd(s)]] + Words(s[WordEnd(s)..])
  {
  }

  lemma {:induction false} StripLeftKeepsWords(s: string)
    ensures Words(StripLeft(s)) == Words(s)
    decreases |s|
  {
    if s != [] && IsSpace(s[0]) {
      StripLeftKeepsWords(s[1..]);
    }
  }

  lemma {:induction false} StripRightKeepsWords(s: string)
    ensures Words(StripRight(s)) == Words(s)
    decreases |s|
  {
    if s != [] && IsSpace(s[|s| - 1]) {
      var most := s[..|s| - 1];
      assert most + [s[|s| - 1]] + [] == s;
      WordsSplitAtBlank(most, s[|s| - 1], []);
      StripRightKeepsWords(most);
    }
  }

  lemma WordsOfWord(w: string)
    requires IsWord(w)
    ensures Words(w) == [w]
  {
    WordEndIs(w, |w|);
    assert w[..|w|] == w && w[|w|..] == [];
  }

  /** Splitting undoes joining with a space. */
  lemma {:induction false} WordsOfJoin(ws: seq<string>)
    requires forall w :: w in ws ==> IsWord(w)
    ensures Words(Join(" ", ws)) == ws
    decreases |ws|
  {
    if |ws| > 0 {
      WordsOfWord(ws[0]);
      if |ws| > 1 {
        WordsSplitAtBlank(ws[0], ' ', Join(" ", ws[1..]));
        WordsOfJoin(ws[1..]);
      }
    }
  }

  // ---------------------------------------------------- splitting at bars

  function LastBar(s: string): (i: nat)
    requires '|' in s
    ensures i < |s| && s[i] == '|' && '|' !in s[i + 1..]
  {
    if s[|s| - 1] == '|' then |s| - 1
    else
      assert s == s[..|s| - 1] + [s[|s| - 1]];
      var i := LastBar(s[..|s| - 1]);
      assert s[i + 1..] == s[..|s| - 1][i + 1..] + [s[|s| - 1]];
      i
  }

  /** Split at the last `n` bars, or at all of them when there are fewer. */
  function RSplit(s: string, n: nat): seq<string> {
    if n == 0 || '|' !in s then [s] else RSplit(s[..LastBar(s)], n - 1) + [s[LastBar(s) + 1..]]
  }

  lemma {:induction false} LastBarIs(s: string, i: nat)
    requires i < |s| && s[i] == '|' && '|' !in s[i + 1..]
    ensures LastBar(s) == i
  {
    var n := |s| - 1;
    if i < n {
      assert s[n] in s[i + 1..];
      assert s[i + 1..] == s[..n][i + 1..] + [s[n]];
      LastBarIs(s[..n], i);
    }
  }

  lemma RSplitLast(s: string, t: string, n: nat)
    requires '|' !in t
    ensures RSplit(s + "|" + t, n + 1) == RSplit(s, n) + [t]
  {
    var whole := s + "|" + t;
    assert whole[|s|] == '|' && whole[|s| + 1..] == t && whole[..|s|] == s;
    LastBarIs(whole, |s|);
  }

  lemma {:induction false} RSplitPiecesHaveNoBar(s: string, n: nat)
    ensures |RSplit(s, n)| >= 1
    ensures forall i :: 1 <= i < |RSplit(s, n)| ==> '|' !in RSplit(s, n)[i]
    decreases n
  {
    if n > 0 && '|' in s {
      RSplitPiecesHaveNoBar(s[..LastBar(s)], n - 1);
    }
  }

  // -------------------------------------------------------------- partition

  /** Index of the first `c`, or the length. */
  function IndexOf(s: string, c: char): (i: nat)
    ensures i <= |s| && c !in s[..i] && (i < |s| ==> s[i] == c)
  {
    if s == [] || s[0] == c then 0
    else
      var i := 1 + IndexOf(s[1..], c);
      assert s[..i] == [s[0]] + s[1..][..i - 1];
      i
  }

  function Before(s: string, c: char): string { s[..IndexOf(s, c)] }

  function After(s: string, c: char): string {
    if IndexOf(s, c) == |s| then "" else s[IndexOf(s, c) + 1..]
  }

  lemma {:induction false} IndexIs(s: string, c: char, i: nat)
    requires i < |s| && s[i] == c && c !in s[..i]
    ensures IndexOf(s, c) == i
  {
    if i > 0 {
      assert s[0] in s[..i];
      assert s[..i] == [s[0]] + s[1..][..i - 1];
      IndexIs(s[1..], c, i - 1);
    }
  }

  lemma PartitionAtFirst(a: string, c: char, b: string)
    requires c !in a
    ensures Before(a + [c] + b, c) == a && After(a + [c] + b, c) == b
  {
    var s := a + [c] + b;
    assert s[..|a|] == a && s[|a|] == c && s[|a| + 1..] == b;
    IndexIs(s, c, |a|);
  }

  lemma PartsGiveBack(s: string, c: char)
    requires After(s, c) != ""
    ensures s == Before(s, c) + [c] + After(s, c) && c !in Before(s, c)
  {
  }

  // --------------------------------------------------------------- decimals

  predicate IsDigit(c: char) { '0' <= c <= '9' }

  function Digit(d: nat): (c: char)
    requires d < 10
    ensures IsDigit(c) && DigitValue(c) == d
  {
    ('0' as int + d) as char
  }

  function DigitValue(c: char): int { c as int - '0' as int }

  predicate AllDigits(s: string) { forall i :: 0 <= i < |s| ==> IsDigit(s[i]) }

  function NatText(n: nat): (s: string)
    ensures s != [] && AllDigits(s)
  {
    if n < 10 then [Digit(n)] else NatText(n / 10) + [Digit(n % 10)]
  }

  function IntText(n: int): string {
    if n < 0 then "-" + NatText(-n) else NatText(n)
  }

  function ParseDigits(s: string): int {
    if s == [] then 0 else 10 * ParseDigits(s[..|s| - 1]) + DigitValue(s[|s| - 1])
  }

  function ParseInt(s: string): Option<int> {
    if s != [] && AllDigits(s) then Some(ParseDigits(s))
    else if |s| > 1 && s[0] == '-' && AllDigits(s[1..]) then Some(-ParseDigits(s[1..]))
    else None
  }

  lemma {:induction false} ParseNatText(n: nat)
    ensures ParseDigits(NatText(n)) == n
  {
    if n >= 10 {
      ParseNatText(n / 10);
      assert NatText(n)[..|NatText(n)| - 1] == NatText(n / 10);
    } else {
      assert [Digit(n)][..0] == [];
    }
  }

  /** Reading back what was printed. */
  lemma ParseIntText(n: int)
    ensures ParseInt(IntText(n)) == Some(n)
  {
    if n < 0 {
      ParseNatText(-n);
      assert IntText(n)[0] == '-' && IntText(n)[1..] == NatText(-n);
    } else {
      ParseNatText(n);
    }
  }

  lemma IntTextAvoids(n: int, c: char)
    requires !IsDigit(c) && c != '-'
    ensures c !in IntText(n) && c !in NatText(if n < 0 then -n else n)
  {
    var digits := NatText(if n < 0 then -n else n);
    assert forall i :: 0 <= i < |digits| ==> IsDigit(digits[i]);
  }
}
