/** Lists of checks, tried in order: the first that fails says why a request is refused. */
module Checks {
  import opened Text

  /** The error of the first check that fails, checks being tried in order. */
  function FirstOf<E>(checks: seq<(bool, E)>): Option<E> {
    if checks == [] then None else if checks[0].0 then Some(checks[0].1) else FirstOf(checks[1..])
  }

  lemma {:induction false} FirstOfConcat<E>(a: seq<(bool, E)>, b: seq<(bool, E)>)
    ensures FirstOf(a + b) == if FirstOf(a).Some? then FirstOf(a) else FirstOf(b)
    decreases |a|
  {
    if a == [] {
      assert a + b == b;
    } else {
      assert (a + b)[1..] == a[1..] + b;
      FirstOfConcat(a[1..], b);
    }
  }

  /** The first of three checks that fails. */
  lemma FirstOfThree<E>(a: (bool, E), b: (bool, E), c: (bool, E))
    ensures FirstOf([a, b, c]) == if a.0 then Some(a.1) else if b.0 then Some(b.1) else if c.0 then Some(c.1) else None
  {
    assert [a, b, c][1..] == [b, c] && [b, c][1..] == [c] && [c][1..] == [];
    assert FirstOf([c]) == if c.0 then Some(c.1) else None;
  }

  lemma FirstOfFive<E>(a: (bool, E), b: (bool, E), c: (bool, E), d: (bool, E), e: (bool, E))
    ensures FirstOf([a, b, c, d, e]) ==
      if a.0 then Some(a.1) else if b.0 then Some(b.1) else FirstOf([c, d, e])
  {
    assert [a, b, c, d, e][1..] == [b, c, d, e] && [b, c, d, e][1..] == [c, d, e];
    assert FirstOf([b, c, d, e]) == if b.0 then Some(b.1) else FirstOf([c, d, e]);
  }

  lemma FirstOfFour<E>(a: (bool, E), b: (bool, E), c: (bool, E), d: (bool, E))
    ensures FirstOf([a, b, c, d]) == if a.0 then Some(a.1) else FirstOf([b, c, d])
  {
    assert [a, b, c, d][1..] == [b, c, d];
  }

  lemma FirstOfOne<E>(a: (bool, E))
    ensures FirstOf([a]) == if a.0 then Some(a.1) else None
  {
    assert [a][1..] == [];
  }

  lemma {:induction false} FourChecks<E>(t: seq<(bool, E)>)
    requires |t| == 4
    ensures FirstOf(t) == if t[0].0 then Some(t[0].1) else if t[1].0 then Some(t[1].1)
                          else if t[2].0 then Some(t[2].1) else if t[3].0 then Some(t[3].1) else None
  {
    FirstOfFour(t[0], t[1], t[2], t[3]);
    FirstOfThree(t[1], t[2], t[3]);
    assert t == [t[0], t[1], t[2], t[3]];
  }
}
