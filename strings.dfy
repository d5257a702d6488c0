/**
 * The parts of Go's `strings` package that the renderer uses: `Join`,
 * and the prefix/suffix/substring relations used to state what a
 * rendered text holds.
 */
module Strings {
  import opened Seqs

  /** `s` begins with `p`. */
  predicate HasPrefix(s: string, p: string)
  {
    |p| <= |s| && s[..|p|] == p
  }

  /** `s` ends with `t`. */
  predicate HasSuffix(s: string, t: string)
  {
    |t| <= |s| && s[|s| - |t|..] == t
  }

  /** `t` occurs in `s`, starting at index `i`. */
  predicate OccursAt(s: string, t: string, i: nat)
  {
    i + |t| <= |s| && s[i..i + |t|] == t
  }

  /** Text always ends with what was written last. */
  lemma SuffixOfAppend(s: string, t: string)
    ensures HasSuffix(s + t, t)
  {
    assert (s + t)[|s + t| - |t|..] == t;
  }

  /** An occurrence survives putting text after it. */
  lemma OccursBefore(s: string, t: string, i: nat, suffix: string)
    requires OccursAt(s, t, i)
    ensures OccursAt(s + suffix, t, i)
  {
    assert (s + suffix)[i..i + |t|] == s[i..i + |t|];
  }

  /** Text always begins with what was written first. */
  lemma PrefixOfAppend(s: string, t: string)
    ensures HasPrefix(s + t, s)
  {
    assert (s + t)[..|s|] == s;
  }

  /**
   * Go's `strings.Join(elems, sep)`: no element gives "", one element
   * gives that element, otherwise the elements with `sep` between each
   * neighbouring pair.
   */
  function Join(elems: seq<string>, sep: string): string
  {
    if |elems| == 0 then ""
    else if |elems| == 1 then elems[0]
    else elems[0] + sep + Join(elems[1..], sep)
  }

  /** The parts written one after another. */
  function Concat(parts: seq<string>): string
  {
    if parts == [] then "" else Concat(parts[..|parts| - 1]) + parts[|parts| - 1]
  }

  /** One more part is written after the others. */
  lemma ConcatSnoc(parts: seq<string>, part: string)
    ensures Concat(parts + [part]) == Concat(parts) + part
  {
    Appended(parts, part, 0);
  }

  /** Two parts are written one after the other. */
  lemma ConcatPair(a: string, b: string)
    ensures Concat([a, b]) == a + b
  {
    assert [a, b][..1] == [a];
    assert [a][..0] == [];
    assert Concat([a]) == "" + a == a;
    assert Concat([a, b]) == Concat([a]) + b;
  }

  /** Writing two runs of parts is writing the first run, then the second. */
  lemma {:induction false} ConcatAppend(first: seq<string>, second: seq<string>)
    ensures Concat(first + second) == Concat(first) + Concat(second)
  {
    if second == [] {
      assert first + second == first;
    } else {
      var init := second[..|second| - 1];
      var last := second[|second| - 1];
      assert first + second == (first + init) + [last];
      ConcatSnoc(first + init, last);
      ConcatAppend(first, init);
      AppendAssoc(Concat(first), Concat(init), last);
    }
  }

  /** Total length of the elements. */
  function TotalLength(elems: seq<string>): nat
  {
    if elems == [] then 0 else |elems[0]| + TotalLength(elems[1..])
  }

  /** Adding one element at the end adds one separator and that element. */
  lemma {:induction false} JoinAppend(elems: seq<string>, last: string, sep: string)
    requires |elems| > 0
    ensures Join(elems + [last], sep) == Join(elems, sep) + sep + last
  {
    if |elems| == 1 {
      assert (elems + [last])[1..] == [last];
    } else {
      assert (elems + [last])[1..] == elems[1..] + [last];
      JoinAppend(elems[1..], last, sep);
    }
  }

  /** The joined text holds every element and one separator per gap, and nothing else. */
  lemma {:induction false} JoinLength(elems: seq<string>, sep: string)
    requires |elems| > 0
    ensures |Join(elems, sep)| == TotalLength(elems) + (|elems| - 1) * |sep|
  {
    if |elems| > 1 {
      JoinLength(elems[1..], sep);
    }
  }

  /** An occurrence survives putting text in front, shifted by that text's length. */
  lemma OccursAfter(prefix: string, s: string, t: string, i: nat)
    requires OccursAt(s, t, i)
    ensures OccursAt(prefix + s, t, |prefix| + i)
  {
    assert (prefix + s)[|prefix| + i..|prefix| + i + |t|] == s[i..i + |t|];
  }

  /** Every element occurs in the joined text, at the offset its predecessors and their separators fill. */
  lemma {:induction false} JoinHoldsElement(elems: seq<string>, sep: string, k: nat)
    requires k < |elems|
    ensures OccursAt(Join(elems, sep), elems[k], TotalLength(elems[..k]) + k * |sep|)
  {
    if k == 0 {
      assert elems[..0] == [];
      if |elems| > 1 {
        assert Join(elems, sep) == elems[0] + (sep + Join(elems[1..], sep));
      }
    } else {
      var rest := Join(elems[1..], sep);
      var off := TotalLength(elems[1..][..k - 1]) + (k - 1) * |sep|;
      JoinHoldsElement(elems[1..], sep, k - 1);
      assert elems[1..][..k - 1] == elems[..k][1..];
      assert TotalLength(elems[..k]) == |elems[0]| + TotalLength(elems[1..][..k - 1]);
      assert Join(elems, sep) == (elems[0] + sep) + rest;
      OccursAfter(elems[0] + sep, rest, elems[k], off);
    }
  }
}
