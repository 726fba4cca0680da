/** The label column of a cluster summary: every label pair rendered as
    `key:value ` and the renderings concatenated in enumeration order. */
module Labels {

  type Pairs = seq<(string, string)>

  function Entry(p: (string, string)): string {
    p.0 + ":" + p.1 + " "
  }

  /** The string the projection accumulates: each pair appended to what the
      earlier pairs produced. */
  function Render(ps: Pairs): string {
    if |ps| == 0 then "" else Render(ps[..|ps| - 1]) + Entry(ps[|ps| - 1])
  }

  /** The total size the rendering must have: key, value, colon and space
      for each pair. */
  function Width(ps: Pairs): nat {
    if |ps| == 0 then 0 else |ps[0].0| + |ps[0].1| + 2 + Width(ps[1..])
  }

  /** Rendering distributes over concatenation of pair lists. */
  lemma {:induction false} RenderAppend(a: Pairs, b: Pairs)
    ensures Render(a + b) == Render(a) + Render(b)
    decreases |b|
  {
    if |b| == 0 {
      assert a + b == a;
    } else {
      var b', last := b[..|b| - 1], b[|b| - 1];
      assert (a + b)[..|a + b| - 1] == a + b';
      assert (a + b)[|a + b| - 1] == last;
      calc {
        Render(a + b);
        Render(a + b') + Entry(last);
        { RenderAppend(a, b'); }
        (Render(a) + Render(b')) + Entry(last);
        Render(a) + (Render(b') + Entry(last));
        Render(a) + Render(b);
      }
    }
  }

  /** Rendering a list read from the front: the first pair's entry, then the rest. */
  lemma RenderCons(ps: Pairs)
    requires |ps| > 0
    ensures Render(ps) == Entry(ps[0]) + Render(ps[1..])
  {
    var head: Pairs := [ps[0]];
    var tail := ps[1..];
    assert head[..0] == [];
    assert Render(head) == Entry(ps[0]);
    RenderAppend(head, tail);
    assert head + tail == ps;
  }

  /** No labels render as the empty string, and the rendering has exactly
      the width of its entries. */
  lemma {:induction false} RenderLength(ps: Pairs)
    ensures |Render(ps)| == Width(ps)
    ensures ps == [] <==> Render(ps) == ""
    decreases |ps|
  {
    if |ps| > 0 {
      RenderCons(ps);
      RenderLength(ps[1..]);
    }
  }

  /** The first position of `c` in `s`, or `|s|` when it does not occur. */
  function IndexOf(s: string, c: char): (i: nat)
    ensures i <= |s|
    ensures i < |s| ==> s[i] == c
    ensures forall j :: 0 <= j < i ==> s[j] != c
  {
    if |s| == 0 then 0
    else if s[0] == c then 0
    else
      var i := IndexOf(s[1..], c);
      assert forall j :: 1 <= j < i + 1 ==> s[j] == s[1..][j - 1];
      i + 1
  }

  /** Reads a rendered label string back into its pairs: each space-ended
      token split at its first colon. */
  function Parse(s: string): Pairs
    decreases |s|
  {
    var i := IndexOf(s, ' ');
    if i == |s| then []
    else
      var t := s[..i];
      var k := IndexOf(t, ':');
      [(t[..k], if k < |t| then t[k + 1..] else "")] + Parse(s[i + 1..])
  }

  /** Kubernetes label keys and values never contain a space, and keys never
      contain a colon. */
  predicate ValidPairs(ps: Pairs) {
    forall i :: 0 <= i < |ps| ==> ' ' !in ps[i].0 && ':' !in ps[i].0 && ' ' !in ps[i].1
  }

  lemma IndexAfterPrefix(a: string, c: char, b: string)
    requires c !in a
    ensures IndexOf(a + [c] + b, c) == |a|
  {
    var s := a + [c] + b;
    assert s[|a|] == c;
    assert forall j :: 0 <= j < |a| ==> s[j] == a[j];
  }

  /** For valid labels the rendering loses nothing: parsing it gives back
      the pairs in their original order. */
  lemma {:induction false} ParseRender(ps: Pairs)
    requires ValidPairs(ps)
    ensures Parse(Render(ps)) == ps
    decreases |ps|
  {
    if |ps| == 0 {
      assert Render(ps) == "";
    } else {
      var k, v := ps[0].0, ps[0].1;
      var rest := Render(ps[1..]);
      RenderCons(ps);
      var s := Render(ps);
      var token := k + ":" + v;
      assert s == token + " " + rest;
      assert ' ' !in token by {
        assert forall j :: 0 <= j < |token| ==> token[j] == (if j < |k| then k[j] else if j == |k| then ':' else v[j - |k| - 1]);
      }
      IndexAfterPrefix(token, ' ', rest);
      assert s[..|token|] == token;
      assert s[|token| + 1..] == rest;
      IndexAfterPrefix(k, ':', v);
      assert token[..|k|] == k;
      assert token[|k| + 1..] == v;
      assert ValidPairs(ps[1..]) by {
        forall i | 0 <= i < |ps| - 1
          ensures ' ' !in ps[1..][i].0 && ':' !in ps[1..][i].0 && ' ' !in ps[1..][i].1
        {
          assert ps[1..][i] == ps[i + 1];
        }
      }
      ParseRender(ps[1..]);
      assert ps == [(k, v)] + ps[1..];
    }
  }
}
