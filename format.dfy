/**
 * The part of Go's `fmt.Sprintf` that the renderer relies on: the `%s`
 * verb with string arguments, each inserted verbatim (an argument is
 * never scanned for verbs itself).
 */
module Format {
  import opened Seqs

  /** What Go writes for a `%s` that has no argument left. */
  const Missing: string := "%!s(MISSING)"

  /**
   * `fmt.Sprintf(format, args...)` for formats whose only verb is `%s`:
   * each `%s` takes the next argument; every other character is copied.
   */
  function Sprintf(format: string, args: seq<string>): string
    decreases |format|
  {
    if |format| == 0 then ""
    else if |format| >= 2 && format[0] == '%' && format[1] == 's' then
      if |args| == 0 then Missing + Sprintf(format[2..], args)
      else args[0] + Sprintf(format[2..], args[1..])
    else [format[0]] + Sprintf(format[1..], args)
  }

  /** A format made of the given texts with a `%s` between each neighbouring pair. */
  function Holes(texts: seq<string>): string
    requires |texts| > 0
  {
    if |texts| == 1 then texts[0] else texts[0] + ("%s" + Holes(texts[1..]))
  }

  /** The texts with the arguments between them, as filling the holes should give. */
  function Filled(texts: seq<string>, args: seq<string>): string
    requires |texts| == |args| + 1
  {
    if |args| == 0 then texts[0] else texts[0] + (args[0] + Filled(texts[1..], args[1..]))
  }

  /** No text holds a `%`, so the only verbs are the holes. */
  predicate Plain(texts: seq<string>)
  {
    forall i :: 0 <= i < |texts| ==> '%' !in texts[i]
  }

  /** Text without `%` is copied unchanged and consumes no argument. */
  lemma {:induction false} SprintfText(text: string, rest: string, args: seq<string>)
    requires '%' !in text
    ensures Sprintf(text + rest, args) == text + Sprintf(rest, args)
  {
    if text != [] {
      assert (text + rest)[0] == text[0];
      assert (text + rest)[1..] == text[1..] + rest;
      SprintfText(text[1..], rest, args);
      assert [text[0]] + text[1..] == text;
      AppendAssoc([text[0]], text[1..], Sprintf(rest, args));
    } else {
      assert text + rest == rest;
    }
  }

  /** A `%s` takes the next argument as it is. */
  lemma SprintfArg(rest: string, arg: string, args: seq<string>)
    ensures Sprintf("%s" + rest, [arg] + args) == arg + Sprintf(rest, args)
  {
    assert ("%s" + rest)[2..] == rest;
    assert ([arg] + args)[1..] == args;
  }

  /** Filling a format of plain texts and holes with exactly one argument per hole puts each argument in its hole. */
  lemma {:induction false} SprintfFillsHoles(texts: seq<string>, args: seq<string>)
    requires |texts| == |args| + 1 && Plain(texts)
    ensures Sprintf(Holes(texts), args) == Filled(texts, args)
  {
    assert '%' !in texts[0];
    if |args| == 0 {
      SprintfText(texts[0], "", args);
      assert texts[0] + "" == texts[0];
    } else {
      var rest := Holes(texts[1..]);
      SprintfText(texts[0], "%s" + rest, args);
      assert [args[0]] + args[1..] == args;
      SprintfArg(rest, args[0], args[1..]);
      assert Plain(texts[1..]) by {
        forall i | 0 <= i < |texts| - 1
          ensures '%' !in texts[1..][i]
        {
          assert texts[1..][i] == texts[i + 1];
        }
      }
      SprintfFillsHoles(texts[1..], args[1..]);
    }
  }

  /** Four texts around three holes, written left to right. */
  lemma HolesOfFour(a: string, b: string, c: string, d: string)
    ensures Holes([a, b, c, d]) == a + "%s" + b + "%s" + c + "%s" + d
  {
    assert [a, b, c, d][1..] == [b, c, d];
    assert [b, c, d][1..] == [c, d];
    assert [c, d][1..] == [d];
    assert Holes([c, d]) == c + ("%s" + d);
    assert Holes([b, c, d]) == b + ("%s" + Holes([c, d]));
  }

  /** Four texts with three arguments between them, written left to right. */
  lemma FilledOfFour(a: string, b: string, c: string, d: string, x: string, y: string, z: string)
    ensures Filled([a, b, c, d], [x, y, z]) == a + x + b + y + c + z + d
  {
    assert [a, b, c, d][1..] == [b, c, d] && [x, y, z][1..] == [y, z];
    assert [b, c, d][1..] == [c, d] && [y, z][1..] == [z];
    assert [c, d][1..] == [d] && [z][1..] == [];
    assert Filled([c, d], [z]) == c + (z + d);
    assert Filled([b, c, d], [y, z]) == b + (y + Filled([c, d], [z]));
  }

  /**
   * Six texts around five holes, where the fourth text is the end `d` of
   * one format and the start `g` of the next: the result is the first
   * format followed by the second.
   */
  lemma HolesOfSix(a: string, b: string, c: string, d: string, g: string, e: string, f: string)
    ensures Holes([a, b, c, d + g, e, f]) == (a + "%s" + b + "%s" + c + "%s" + d) + (g + "%s" + e + "%s" + f)
  {
    assert [a, b, c, d + g, e, f][1..] == [b, c, d + g, e, f];
    assert [b, c, d + g, e, f][1..] == [c, d + g, e, f];
    HolesOfFour(c, d + g, e, f);
    assert Holes([b, c, d + g, e, f]) == b + ("%s" + Holes([c, d + g, e, f]));
  }

  /** Six texts with five arguments between them, split the same way as in `HolesOfSix`. */
  lemma FilledOfSix(a: string, b: string, c: string, d: string, g: string, e: string, f: string,
                    x: string, y: string, z: string, u: string, v: string)
    ensures Filled([a, b, c, d + g, e, f], [x, y, z, u, v])
         == (a + x + b + y + c + z + d) + (g + u + e + v + f)
  {
    assert [a, b, c, d + g, e, f][1..] == [b, c, d + g, e, f] && [x, y, z, u, v][1..] == [y, z, u, v];
    assert [b, c, d + g, e, f][1..] == [c, d + g, e, f] && [y, z, u, v][1..] == [z, u, v];
    FilledOfFour(c, d + g, e, f, z, u, v);
    assert Filled([b, c, d + g, e, f], [y, z, u, v]) == b + (y + Filled([c, d + g, e, f], [z, u, v]));
  }
}
