// String operations of JavaScript as the application uses them: truthiness,
// `||` on optional strings, case mapping, `includes`, `split`, `join`, `slice`.
module Text {
  import opened Wrappers
  import Seqs

  /** A JavaScript string is truthy exactly when it is not empty. */
  predicate Truthy(s: string) {
    s != ""
  }

  /** An optional string (absent = `undefined`/`null`) is truthy when present and not empty. */
  predicate Present(o: Option<string>) {
    o.Some? && o.value != ""
  }

  /** JavaScript `a || b` on optional strings: `a` when truthy, otherwise `b` as it is. */
  function Or(a: Option<string>, b: Option<string>): (r: Option<string>)
    ensures Present(a) ==> r == a
    ensures !Present(a) ==> r == b
    ensures Present(r) <==> Present(a) || Present(b)
  {
    if Present(a) then a else b
  }

  /** JavaScript `a || fallback` with a string fallback. */
  function OrElse(a: Option<string>, fallback: string): (r: string)
    ensures Present(a) ==> r == a.value
    ensures !Present(a) ==> r == fallback
    ensures Truthy(fallback) ==> Truthy(r)
  {
    if Present(a) then a.value else fallback
  }

  function LowerChar(c: char): char {
    if 'A' <= c <= 'Z' then (c as int + 32) as char else c
  }

  function UpperChar(c: char): char {
    if 'a' <= c <= 'z' then (c as int - 32) as char else c
  }

  predicate IsLowerLetter(c: char) {
    'a' <= c <= 'z'
  }

  /** `toLowerCase()`, restricted to the ASCII letters. */
  function Lower(s: string): (r: string)
    ensures |r| == |s|
    ensures forall i :: 0 <= i < |s| ==> r[i] == LowerChar(s[i])
  {
    seq(|s|, i requires 0 <= i < |s| => LowerChar(s[i]))
  }

  /** `toUpperCase()`, restricted to the ASCII letters. */
  function Upper(s: string): (r: string)
    ensures |r| == |s|
    ensures forall i :: 0 <= i < |s| ==> r[i] == UpperChar(s[i])
    ensures forall i :: 0 <= i < |r| ==> !IsLowerLetter(r[i])
  {
    seq(|s|, i requires 0 <= i < |s| => UpperChar(s[i]))
  }

  /** `s.includes(sub)`: `sub` occurs in `s` at some position. */
  predicate Contains(s: string, sub: string)
    decreases |s|
  {
    sub <= s || (s != [] && Contains(s[1..], sub))
  }

  lemma {:induction false} ContainsAt(s: string, sub: string, k: nat)
    requires k + |sub| <= |s| && s[k..k + |sub|] == sub
    ensures Contains(s, sub)
    decreases k
  {
    if k == 0 {
      assert s[..|sub|] == sub;
    } else {
      assert s[1..][k - 1..k - 1 + |sub|] == s[k..k + |sub|];
      ContainsAt(s[1..], sub, k - 1);
    }
  }

  lemma {:induction false} ContainsWitness(s: string, sub: string) returns (k: nat)
    requires Contains(s, sub)
    ensures k + |sub| <= |s| && s[k..k + |sub|] == sub
    decreases |s|
  {
    if sub <= s {
      k := 0;
    } else {
      var k' := ContainsWitness(s[1..], sub);
      k := k' + 1;
      assert s[1..][k'..k' + |sub|] == s[k..k + |sub|];
    }
  }

  /** Every string includes the empty string and itself. */
  lemma ContainsEmptyAndSelf(s: string)
    ensures Contains(s, "") && Contains(s, s)
  {
  }

  /** Index of the first occurrence of `c`, if any. */
  function IndexOf(s: string, c: char): (r: Option<nat>)
    ensures r.Some? ==> r.value < |s| && s[r.value] == c && c !in s[..r.value]
    ensures r.None? ==> c !in s
  {
    if s == [] then None
    else if s[0] == c then Some(0)
    else
      var rest := IndexOf(s[1..], c);
      if rest.None? then None
      else
        assert s[1..][..rest.value] == s[1..rest.value + 1];
        assert s[..rest.value + 1] == [s[0]] + s[1..rest.value + 1];
        Some(rest.value + 1)
  }

  /** `s.split(sep)` with a one-character separator. */
  function Split(s: string, sep: char): (parts: seq<string>)
    ensures |parts| >= 1
    ensures forall i :: 0 <= i < |parts| ==> sep !in parts[i]
    decreases |s|
  {
    match IndexOf(s, sep)
    case None => [s]
    case Some(k) => [s[..k]] + Split(s[k + 1..], sep)
  }

  /** `s.split(sep)[0]`: the text before the first `sep`, or all of `s`. */
  function BeforeFirst(s: string, sep: char): (r: string)
    ensures r <= s && sep !in r
    ensures |r| < |s| ==> s[|r|] == sep
  {
    var r := Split(s, sep)[0];
    assert r == (match IndexOf(s, sep) case None => s case Some(k) => s[..k]);
    r
  }

  lemma {:induction false} IndexOfFirst(pre: string, c: char, rest: string)
    requires c !in pre
    ensures IndexOf(pre + [c] + rest, c) == Some(|pre|)
    decreases |pre|
  {
    var s := pre + [c] + rest;
    if pre != [] {
      assert s[1..] == pre[1..] + [c] + rest;
      IndexOfFirst(pre[1..], c, rest);
    }
  }

  /** The text before the first `sep` of `pre + sep + rest` is `pre` when `pre` has no `sep`. */
  lemma BeforeFirstOf(pre: string, sep: char, rest: string)
    requires sep !in pre
    ensures BeforeFirst(pre + [sep] + rest, sep) == pre
  {
    IndexOfFirst(pre, sep, rest);
    assert (pre + [sep] + rest)[..|pre|] == pre;
  }

  /** `parts.join(sep)`. */
  function Join(parts: seq<string>, sep: string): string
  {
    if parts == [] then ""
    else if |parts| == 1 then parts[0]
    else parts[0] + sep + Join(parts[1..], sep)
  }

  /** Splitting on `sep` and joining again with `sep` gives back the string. */
  lemma {:induction false} SplitJoin(s: string, sep: char)
    ensures Join(Split(s, sep), [sep]) == s
    decreases |s|
  {
    match IndexOf(s, sep)
    case None =>
    case Some(k) =>
      var rest := Split(s[k + 1..], sep);
      SplitJoin(s[k + 1..], sep);
      assert Split(s, sep) == [s[..k]] + rest;
      assert (Split(s, sep))[1..] == rest;
      assert s == s[..k] + [sep] + s[k + 1..];
  }

  /** `s.slice(0, n)` for a non-negative `n`. */
  function Take(s: string, n: nat): (r: string)
    ensures |r| <= n && r <= s
    ensures |s| <= n ==> r == s
    ensures |s| > n ==> r == s[..n]
  {
    if |s| <= n then s else s[..n]
  }

  /** `s.startsWith(prefix)`. */
  predicate StartsWith(s: string, prefix: string) {
    prefix <= s
  }

  /** Lexicographic order on strings by character code, the order `orderBy: { name: 'asc' }` sorts by. */
  predicate StrLe(a: string, b: string)
    decreases |a|
  {
    if a == [] then true
    else if b == [] then false
    else if a[0] != b[0] then a[0] < b[0]
    else StrLe(a[1..], b[1..])
  }

  lemma {:induction false} StrLeTransitive(a: string, b: string, c: string)
    requires StrLe(a, b) && StrLe(b, c)
    ensures StrLe(a, c)
    decreases |a|
  {
    if a != [] && b != [] && c != [] && a[0] == b[0] && b[0] == c[0] {
      StrLeTransitive(a[1..], b[1..], c[1..]);
    }
  }

  lemma {:induction false} StrLeTotal(a: string, b: string)
    ensures StrLe(a, b) || StrLe(b, a)
    decreases |a|
  {
    if a != [] && b != [] && a[0] == b[0] {
      StrLeTotal(a[1..], b[1..]);
    }
  }

  // ---------------------------------------------------------------------
  // Initials, as the pages compute them from a display name.

  /** The words of `name`: the pieces between single spaces that are not empty. */
  function Words(name: string): (ws: seq<string>)
    ensures forall i :: 0 <= i < |ws| ==> ws[i] != "" && ' ' !in ws[i]
  {
    Seqs.Filter(Split(name, ' '), Truthy)
  }

  /**
   * `words.map(n => n[0]).join('')`: the first character of each piece; an
   * empty piece contributes nothing, since `undefined` joins as "".
   */
  function FirstChars(words: seq<string>): (r: string)
    ensures |r| == |Seqs.Filter(words, Truthy)|
    ensures forall i :: 0 <= i < |r| ==> r[i] == Seqs.Filter(words, Truthy)[i][0]
  {
    if words == [] then ""
    else if words[0] == "" then FirstChars(words[1..])
    else
      assert Seqs.Filter(words, Truthy) == [words[0]] + Seqs.Filter(words[1..], Truthy);
      [words[0][0]] + FirstChars(words[1..])
  }

  /**
   * `getInitials`: the first character of each space-separated word,
   * upper-cased, at most two of them.
   */
  function Initials(name: string): (r: string)
    ensures |r| <= 2
    ensures |r| == if |Words(name)| < 2 then |Words(name)| else 2
    ensures forall i :: 0 <= i < |r| ==> r[i] == UpperChar(Words(name)[i][0])
    ensures forall i :: 0 <= i < |r| ==> !IsLowerLetter(r[i]) && r[i] != ' '
  {
    var up := Upper(FirstChars(Split(name, ' ')));
    assert forall i :: 0 <= i < |up| ==> up[i] != ' ' by {
      forall i | 0 <= i < |up| ensures up[i] != ' ' {
        var w := Words(name)[i];
        assert w[0] in w;
      }
    }
    Take(up, 2)
  }

  /** A name of two words gets the upper-cased first letters of both. */
  lemma InitialsOfTwoWords(first: string, last: string)
    requires first != "" && last != "" && ' ' !in first && ' ' !in last
    ensures Initials(first + " " + last) == [UpperChar(first[0]), UpperChar(last[0])]
  {
    var name := first + " " + last;
    assert name == first + [' '] + last;
    IndexOfFirst(first, ' ', last);
    assert name[..|first|] == first && name[|first| + 1..] == last;
    assert IndexOf(last, ' ') == None;
    assert Split(name, ' ') == [first, last];
    assert Seqs.Filter([first, last], Truthy) == [first, last] by {
      assert [first, last][1..] == [last];
    }
  }
}
