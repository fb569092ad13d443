/** Plain string helpers: substring search, joining, splitting on a
    character, and decimal rendering of numbers. */
module Text {

  /** `sub` occurs somewhere in `s` (JavaScript's `includes` on strings). */
  predicate Contains(s: string, sub: string)
    decreases |s|
  {
    sub <= s || (s != [] && Contains(s[1..], sub))
  }

  lemma {:induction false} ContainsInfix(a: string, x: string, b: string)
    ensures Contains(a + x + b, x)
    decreases |a|
  {
    if a == [] {
      assert a + x + b == x + b;
      assert x <= x + b;
    } else {
      ContainsInfix(a[1..], x, b);
      assert (a + x + b)[1..] == a[1..] + x + b;
    }
  }

  /** An occurrence of a non-empty `sub` starts with a character of `s`. */
  lemma {:induction false} ContainsHead(s: string, sub: string)
    requires sub != [] && Contains(s, sub)
    ensures sub[0] in s
    decreases |s|
  {
    if sub <= s {
      assert s[0] == sub[0];
    } else {
      ContainsHead(s[1..], sub);
      assert s == [s[0]] + s[1..];
    }
  }

  lemma {:induction false} ContainsPrefix(t: string, s: string, u: string)
    requires t <= s && Contains(t, u)
    ensures Contains(s, u)
    decreases |t|
  {
    if !(u <= t) {
      ContainsPrefix(t[1..], s[1..], u);
    }
  }

  /** An occurrence inside an occurrence is an occurrence. */
  lemma {:induction false} ContainsTrans(s: string, t: string, u: string)
    requires Contains(s, t) && Contains(t, u)
    ensures Contains(s, u)
    decreases |s|
  {
    if t <= s {
      ContainsPrefix(t, s, u);
    } else {
      ContainsTrans(s[1..], t, u);
    }
  }

  /** The concatenation of `parts`, in order. Template documents are written
      as the list of their fragments. */
  function Concat(parts: seq<string>): string
  {
    if parts == [] then "" else parts[0] + Concat(parts[1..])
  }

  lemma {:induction false} ConcatAppend(p: seq<string>, q: seq<string>)
    ensures Concat(p + q) == Concat(p) + Concat(q)
  {
    if p != [] {
      ConcatAppend(p[1..], q);
      assert (p + q)[1..] == p[1..] + q;
      assert (p + q)[0] == p[0];
    } else {
      assert p + q == q;
    }
  }

  lemma SliceThree<T>(s: seq<T>, i: nat, j: nat)
    requires i <= j <= |s|
    ensures s == s[..i] + s[i..j] + s[j..]
  {
  }

  lemma ConcatThree(parts: seq<string>, i: nat, j: nat)
    requires i <= j <= |parts|
    ensures Concat(parts) == Concat(parts[..i]) + Concat(parts[i..j]) + Concat(parts[j..])
  {
    SliceThree(parts, i, j);
    ConcatAppend(parts[..i] + parts[i..j], parts[j..]);
    ConcatAppend(parts[..i], parts[i..j]);
  }

  lemma ConcatOfFew(x: string, y: string, z: string)
    ensures Concat([x]) == x
    ensures Concat([x, y, z]) == x + y + z
  {
    assert [x][1..] == [];
    assert [x] + [] == [x];
    assert [x, y, z][1..] == [y, z];
    assert [y, z][1..] == [z];
    assert [z][1..] == [];
    assert Concat([z]) == z;
    assert Concat([y, z]) == y + z;
    assert x + (y + z) == x + y + z;
  }

  /** A run of consecutive fragments occurs in the concatenation. */
  lemma ConcatContains(parts: seq<string>, i: nat, j: nat)
    requires i <= j <= |parts|
    ensures Contains(Concat(parts), Concat(parts[i..j]))
  {
    ConcatThree(parts, i, j);
    ContainsInfix(Concat(parts[..i]), Concat(parts[i..j]), Concat(parts[j..]));
  }

  /** A single fragment occurs in the concatenation. */
  lemma ConcatContainsPart(parts: seq<string>, i: nat)
    requires i < |parts|
    ensures Contains(Concat(parts), parts[i])
  {
    ConcatContains(parts, i, i + 1);
    assert parts[i..i + 1] == [parts[i]];
    ConcatOfFew(parts[i], "", "");
  }

  /** Three consecutive fragments occur together in the concatenation. */
  lemma ConcatContainsRun(parts: seq<string>, i: nat, a: string, b: string, c: string)
    requires i + 2 < |parts| && parts[i] == a && parts[i + 1] == b && parts[i + 2] == c
    ensures Contains(Concat(parts), a + b + c)
  {
    ConcatContains(parts, i, i + 3);
    assert parts[i..i + 3] == [a, b, c];
    ConcatOfFew(a, b, c);
  }

  lemma {:induction false} ConcatWithout(parts: seq<string>, c: char)
    requires forall k :: 0 <= k < |parts| ==> c !in parts[k]
    ensures c !in Concat(parts)
  {
    if parts != [] {
      ConcatWithout(parts[1..], c);
    }
  }

  /** `parts` joined with `sep` between neighbours (JavaScript's `join`). */
  function Join(parts: seq<string>, sep: string): string
  {
    if |parts| == 0 then ""
    else if |parts| == 1 then parts[0]
    else parts[0] + sep + Join(parts[1..], sep)
  }

  /** The pieces of `s` between occurrences of `sep` (JavaScript's `split`). */
  function Split(s: string, sep: char): (pieces: seq<string>)
    ensures |pieces| >= 1
    decreases |s|
  {
    if s == [] then [[]]
    else
      var rest := Split(s[1..], sep);
      if s[0] == sep then [[]] + rest
      else [[s[0]] + rest[0]] + rest[1..]
  }

  lemma {:induction false} SplitWithout(x: string, sep: char)
    requires sep !in x
    ensures Split(x, sep) == [x]
    decreases |x|
  {
    if x != [] {
      SplitWithout(x[1..], sep);
      assert [x[0]] + x[1..] == x;
    }
  }

  lemma {:induction false} SplitAt(x: string, sep: char, y: string)
    requires sep !in x
    ensures Split(x + [sep] + y, sep) == [x] + Split(y, sep)
    decreases |x|
  {
    var s := x + [sep] + y;
    if x == [] {
      assert s[1..] == y;
    } else {
      SplitAt(x[1..], sep, y);
      assert s[1..] == x[1..] + [sep] + y;
      assert [x[0]] + x[1..] == x;
    }
  }

  /** Every second piece: the odd-numbered pieces of a split. */
  function OddPieces(pieces: seq<string>): seq<string>
  {
    if |pieces| < 2 then [] else [pieces[1]] + OddPieces(pieces[2..])
  }

  /** The contents of the double-quoted string literals of `s`, in order, as
      a reader that knows no escape sequence finds them. */
  function QuotedStrings(s: string): seq<string>
  {
    OddPieces(Split(s, '"'))
  }

  /** `s` wrapped in double quotes, with nothing escaped. */
  function Quoted(s: string): string
  {
    "\"" + s + "\""
  }

  lemma QuotedStringsNone(x: string)
    requires '"' !in x
    ensures QuotedStrings(x) == []
  {
    SplitWithout(x, '"');
  }

  /** A quoted literal after quote-free text is the first literal found. */
  lemma QuotedStringsCons(prefix: string, x: string, rest: string)
    requires '"' !in prefix && '"' !in x
    ensures QuotedStrings(prefix + Quoted(x) + rest) == [x] + QuotedStrings(rest)
  {
    var s := prefix + Quoted(x) + rest;
    assert s == prefix + ['"'] + (x + ['"'] + rest);
    SplitAt(prefix, '"', x + ['"'] + rest);
    SplitAt(x, '"', rest);
    var pieces := [prefix] + ([x] + Split(rest, '"'));
    assert pieces[2..] == Split(rest, '"');
  }

  lemma {:induction false} SplitPlainPrefix(p: string, x: string)
    requires '"' !in p
    ensures Split(p + x, '"') == [p + Split(x, '"')[0]] + Split(x, '"')[1..]
    decreases |p|
  {
    if p != [] {
      SplitPlainPrefix(p[1..], x);
      var rest := Split(x, '"');
      assert (p + x)[0] == p[0] && p[0] != '"';
      assert (p + x)[1..] == p[1..] + x;
      var inner := Split(p[1..] + x, '"');
      assert inner[0] == p[1..] + rest[0] && inner[1..] == rest[1..];
      assert [p[0]] + (p[1..] + rest[0]) == p + rest[0];
    } else {
      var rest := Split(x, '"');
      assert p + x == x && p + rest[0] == rest[0];
      assert rest == [rest[0]] + rest[1..];
    }
  }

  /** Quote-free text before a string does not change its literals. */
  lemma QuotedStringsSkipPlain(p: string, x: string)
    requires '"' !in p
    ensures QuotedStrings(p + x) == QuotedStrings(x)
  {
    SplitPlainPrefix(p, x);
    var pieces := Split(x, '"');
    assert pieces == [pieces[0]] + pieces[1..];
    var moved := [p + pieces[0]] + pieces[1..];
    if |pieces| >= 2 {
      assert moved[1] == pieces[1] && moved[2..] == pieces[2..];
    }
  }

  /** The first quoted fragment after quote-free fragments is the first
      string literal of the concatenation. */
  lemma QuotedStringsOfParts(parts: seq<string>, i: nat, x: string)
    requires i < |parts| && parts[i] == Quoted(x) && '"' !in x
    requires forall k :: 0 <= k < i ==> '"' !in parts[k]
    ensures QuotedStrings(Concat(parts)) == [x] + QuotedStrings(Concat(parts[i + 1..]))
  {
    var pre, rest := parts[..i], parts[i + 1..];
    assert parts[i..] == [parts[i]] + rest;
    assert parts == pre + parts[i..];
    ConcatAppend(pre, [parts[i]] + rest);
    ConcatAppend([parts[i]], rest);
    ConcatOfFew(parts[i], "", "");
    assert Concat(parts) == Concat(pre) + Quoted(x) + Concat(rest);
    ConcatWithout(pre, '"');
    QuotedStringsCons(Concat(pre), x, Concat(rest));
  }

  /** Fragments of which exactly two, the i-th and the j-th, are quoted
      literals and no other holds a quote: those are the string literals. */
  lemma QuotedStringsOfTwo(parts: seq<string>, i: nat, x: string, j: nat, y: string)
    requires i < j < |parts|
    requires parts[i] == Quoted(x) && parts[j] == Quoted(y) && '"' !in x && '"' !in y
    requires forall k :: 0 <= k < |parts| && k != i && k != j ==> '"' !in parts[k]
    ensures QuotedStrings(Concat(parts)) == [x, y]
  {
    QuotedStringsOfParts(parts, i, x);
    var rest := parts[i + 1..];
    assert rest[j - i - 1] == parts[j];
    assert forall k :: 0 <= k < j - i - 1 ==> rest[k] == parts[i + 1 + k];
    QuotedStringsOfParts(rest, j - i - 1, y);
    var tail := rest[j - i..];
    assert forall k :: 0 <= k < |tail| ==> tail[k] == parts[j + 1 + k];
    ConcatWithout(tail, '"');
    QuotedStringsNone(Concat(tail));
    assert QuotedStrings(Concat(rest)) == [y];
    assert [x] + [y] == [x, y];
  }

  function DigitChar(d: nat): char
    requires d < 10
  {
    "0123456789"[d]
  }

  /** The decimal numeral of `n`, most significant digit first. */
  function NatToString(n: nat): (r: string)
    ensures |r| >= 1
    ensures forall i :: 0 <= i < |r| ==> '0' <= r[i] <= '9'
    decreases n
  {
    if n < 10 then [DigitChar(n)] else NatToString(n / 10) + [DigitChar(n % 10)]
  }

  /** The decimal numeral of `i`, with a leading minus sign when negative. */
  function IntToString(i: int): (r: string)
    ensures '"' !in r
  {
    if i < 0 then "-" + NatToString(-i) else NatToString(i)
  }
}
