/**
 * The JavaScript string operations the application relies on, over `seq<char>`:
 * `startsWith`, `includes`, `replace` with a string pattern (first occurrence only),
 * `Array.prototype.join`, `split` on a one-character separator, `trim` emptiness,
 * and the truthiness of an optional string.
 */
module Text {
  import opened Wrappers

  /** `s.startsWith(p)`. */
  predicate IsPrefix(p: string, s: string) {
    |p| <= |s| && s[..|p|] == p
  }

  /** `s.includes(sub)`: some suffix of `s` starts with `sub`. */
  predicate Contains(s: string, sub: string)
    decreases |s|
  {
    IsPrefix(sub, s) || (|s| > 0 && Contains(s[1..], sub))
  }

  /** A JavaScript string value is truthy iff it is present and non-empty. */
  predicate Truthy(o: Option<string>) {
    o.Some? && o.value != ""
  }

  lemma {:induction false} ContainsAt(s: string, sub: string, k: nat)
    requires k + |sub| <= |s| && s[k..k + |sub|] == sub
    ensures Contains(s, sub)
    decreases k
  {
    if k == 0 {
      assert s[..|sub|] == sub;
    } else {
      assert s[1..][k - 1..k - 1 + |sub|] == sub;
      ContainsAt(s[1..], sub, k - 1);
    }
  }

  lemma {:induction false} ContainsWitness(s: string, sub: string) returns (k: nat)
    requires Contains(s, sub)
    ensures k + |sub| <= |s| && s[k..k + |sub|] == sub
    decreases |s|
  {
    if IsPrefix(sub, s) {
      k := 0;
    } else {
      var k' := ContainsWitness(s[1..], sub);
      k := k' + 1;
      assert s[k..k + |sub|] == s[1..][k'..k' + |sub|];
    }
  }

  /** Every string is found inside any string built around it. */
  lemma ContainsInfix(a: string, sub: string, b: string)
    ensures Contains(a + sub + b, sub)
  {
    var s := a + sub + b;
    assert s[|a|..|a| + |sub|] == sub;
    ContainsAt(s, sub, |a|);
  }

  /** A character of a contained string occurs in the containing string. */
  lemma ContainedCharOccurs(s: string, sub: string, i: nat)
    requires Contains(s, sub) && i < |sub|
    ensures sub[i] in s
  {
    var k := ContainsWitness(s, sub);
    assert s[k + i] == sub[i];
  }

  /** The first two characters of a contained string occur next to each other in the containing string. */
  lemma ContainedPairOccurs(s: string, sub: string)
    requires Contains(s, sub) && |sub| >= 2
    ensures exists k :: 0 <= k < |s| - 1 && s[k] == sub[0] && s[k + 1] == sub[1]
  {
    var k := ContainsWitness(s, sub);
    assert s[k] == sub[0] && s[k + 1] == sub[1];
  }

  /** `s.replace(p, q)` with a string pattern: only the first occurrence of `p` is replaced. */
  function ReplaceFirst(s: string, p: string, q: string): (r: string)
    decreases |s|
  {
    if IsPrefix(p, s) then q + s[|p|..]
    else if |s| == 0 then s
    else [s[0]] + ReplaceFirst(s[1..], p, q)
  }

  /** Without an occurrence of the pattern, `replace` returns its input. */
  lemma {:induction false} ReplaceFirstAbsent(s: string, p: string, q: string)
    requires !Contains(s, p)
    ensures ReplaceFirst(s, p, q) == s
    decreases |s|
  {
    if |s| > 0 {
      ReplaceFirstAbsent(s[1..], p, q);
    }
  }

  /**
   * When `p` first occurs right after `a`, `replace` puts `q` in its place and keeps the rest.
   * `NoEarlierMatch` says that no occurrence of `p` starts inside `a`.
   */
  predicate NoEarlierMatch(s: string, p: string, n: nat)
    requires n <= |s|
  {
    forall k :: 0 <= k < n ==> !IsPrefix(p, s[k..])
  }

  lemma {:induction false} ReplaceFirstAt(a: string, p: string, b: string, q: string)
    requires NoEarlierMatch(a + p + b, p, |a|)
    ensures ReplaceFirst(a + p + b, p, q) == a + q + b
    decreases |a|
  {
    var s := a + p + b;
    if |a| == 0 {
      assert s == p + b;
      assert IsPrefix(p, s);
      assert s[|p|..] == b;
    } else {
      assert s[0..] == s;
      assert !IsPrefix(p, s);
      assert s[1..] == a[1..] + p + b;
      forall k | 0 <= k < |a| - 1 ensures !IsPrefix(p, s[1..][k..]) {
        assert s[1..][k..] == s[k + 1..];
      }
      ReplaceFirstAt(a[1..], p, b, q);
      assert [a[0]] + (a[1..] + q + b) == a + q + b;
    }
  }

  /** After `replace`, the replacement text is present whenever the pattern was. */
  lemma {:induction false} ReplaceFirstInserts(s: string, p: string, q: string)
    requires Contains(s, p)
    ensures Contains(ReplaceFirst(s, p, q), q)
    decreases |s|
  {
    if IsPrefix(p, s) {
      ContainsInfix([], q, s[|p|..]);
      assert [] + q + s[|p|..] == q + s[|p|..];
    } else {
      ReplaceFirstInserts(s[1..], p, q);
      var r := ReplaceFirst(s[1..], p, q);
      var k := ContainsWitness(r, q);
      assert ([s[0]] + r)[k + 1..k + 1 + |q|] == r[k..k + |q|];
      ContainsAt([s[0]] + r, q, k + 1);
    }
  }

  /** `parts.join(sep)`. */
  function Join(parts: seq<string>, sep: string): string
    decreases |parts|
  {
    if |parts| == 0 then ""
    else if |parts| == 1 then parts[0]
    else parts[0] + sep + Join(parts[1..], sep)
  }

  /** The concatenation of a sequence of strings (`join('')`, or repeated `+=`). */
  function Concat(parts: seq<string>): string
    decreases |parts|
  {
    if |parts| == 0 then "" else parts[0] + Concat(parts[1..])
  }

  lemma {:induction false} ConcatAppend(a: seq<string>, b: seq<string>)
    ensures Concat(a + b) == Concat(a) + Concat(b)
    decreases |a|
  {
    if |a| == 0 {
      assert a + b == b;
    } else {
      assert (a + b)[1..] == a[1..] + b;
      ConcatAppend(a[1..], b);
    }
  }

  lemma ConcatCons(parts: seq<string>, tail: string)
    requires |parts| > 0
    ensures Concat(parts) + tail == parts[0] + (Concat(parts[1..]) + tail)
  {
  }

  /** Index of the first occurrence of `c` in `s`, if any. */
  function IndexOf(s: string, c: char): (r: Option<nat>)
    ensures r.Some? ==> r.value < |s| && s[r.value] == c && c !in s[..r.value]
    ensures r.None? <==> c !in s
    decreases |s|
  {
    if |s| == 0 then None
    else if s[0] == c then Some(0)
    else match IndexOf(s[1..], c)
      case None => None
      case Some(i) => assert s[1..][..i] == s[1..i + 1]; Some(i + 1)
  }

  /** `s.split(sep)` for a one-character separator: the pieces between separators, always at least one. */
  function Split(s: string, sep: char): (r: seq<string>)
    ensures |r| >= 1
    decreases |s|
  {
    match IndexOf(s, sep)
    case None => [s]
    case Some(i) => [s[..i]] + Split(s[i + 1..], sep)
  }

  /** Splitting a string that has the separator after a separator-free piece. */
  lemma SplitAfterPiece(a: string, sep: char, rest: string)
    requires sep !in a
    ensures Split(a + [sep] + rest, sep) == [a] + Split(rest, sep)
  {
    var s := a + [sep] + rest;
    assert s[|a|] == sep;
    assert s[..|a|] == a;
    var i := IndexOf(s, sep);
    assert i.Some?;
    assert i.value <= |a| by {
      assert s[..|a| + 1][|a|] == sep;
    }
    assert s[|a| + 1..] == rest;
  }

  /** The characters `String.prototype.trim` removes (white space and line terminators). */
  predicate IsJsWhitespace(c: char) {
    c == ' ' || c == '\t' || c == '\n' || c == '\r' || c == '\U{B}' || c == '\U{C}'
    || c == '\U{A0}' || c == '\U{1680}' || ('\U{2000}' <= c <= '\U{200A}')
    || c == '\U{2028}' || c == '\U{2029}' || c == '\U{202F}' || c == '\U{205F}'
    || c == '\U{3000}' || c == '\U{FEFF}'
  }

  /** `!s.trim()`: the string is empty once white space is removed from both ends. */
  predicate IsBlank(s: string) {
    forall i :: 0 <= i < |s| ==> IsJsWhitespace(s[i])
  }

  /**
   * The strings of `parts` occur in `text` one after another, without overlapping, in this order:
   * the last one occurs somewhere, and the others occur in order before it.
   */
  predicate ContainsInOrder(text: string, parts: seq<string>)
    decreases |parts|
  {
    |parts| == 0
    || exists i :: 0 <= i && i + |parts[|parts| - 1]| <= |text|
                   && text[i..i + |parts[|parts| - 1]|] == parts[|parts| - 1]
                   && ContainsInOrder(text[..i], parts[..|parts| - 1])
  }

  /** Appending `z` and anything after it to a text that holds `parts` in order gives one that holds `parts + [z]`. */
  lemma InOrderSnoc(pre: string, z: string, post: string, parts: seq<string>)
    requires ContainsInOrder(pre, parts)
    ensures ContainsInOrder(pre + z + post, parts + [z])
  {
    var text := pre + z + post;
    var ps := parts + [z];
    var i := |pre|;
    assert ps[|ps| - 1] == z && ps[..|ps| - 1] == parts;
    assert text[..i] == pre;
    assert text[i..i + |z|] == z;
    assert 0 <= i && i + |ps[|ps| - 1]| <= |text| && text[i..i + |ps[|ps| - 1]|] == ps[|ps| - 1]
           && ContainsInOrder(text[..i], ps[..|ps| - 1]);
  }

  /** A text assembled as `a + x + b + y + c + z + d` holds `x`, `y`, `z` in that order. */
  lemma InOrderOfThree(a: string, x: string, b: string, y: string, c: string, z: string, d: string)
    ensures ContainsInOrder(a + x + b + y + c + z + d, [x, y, z])
  {
    assert ContainsInOrder(a, []);
    InOrderSnoc(a, x, b, []);
    assert [] + [x] == [x];
    InOrderSnoc(a + x + b, y, c, [x]);
    assert [x] + [y] == [x, y];
    InOrderSnoc(a + x + b + y + c, z, d, [x, y]);
    assert [x, y] + [z] == [x, y, z];
  }

  /** The four-part version: `a + w + b + x + c + y + d + z + e` holds `w`, `x`, `y`, `z` in that order. */
  lemma InOrderOfFour(a: string, w: string, b: string, x: string, c: string, y: string, d: string,
                      z: string, e: string)
    ensures ContainsInOrder(a + w + b + x + c + y + d + z + e, [w, x, y, z])
  {
    InOrderOfThree(a, w, b, x, c, y, d);
    InOrderSnoc(a + w + b + x + c + y + d, z, e, [w, x, y]);
    assert [w, x, y] + [z] == [w, x, y, z];
  }
}
