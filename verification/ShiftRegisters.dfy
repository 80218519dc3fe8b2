/**
 Facts about any register that consumes bits one at a time. The state and the
 step are parameters, so these proofs never look inside a machine word.
 */
module ShiftRegisters {
  ghost function Fold<S>(step: (S, bool) -> S, s: S, bits: seq<bool>): S
    decreases |bits|
  {
    if bits == [] then s else Fold(step, step(s, bits[0]), bits[1..])
  }

  // `n` steps with no message bit.
  ghost function Shifts<S>(step: (S, bool) -> S, s: S, n: nat): S
    decreases n
  {
    if n == 0 then s else Shifts(step, step(s, false), n - 1)
  }

  lemma {:induction false} FoldAppend<S>(step: (S, bool) -> S, s: S, a: seq<bool>, b: seq<bool>)
    ensures Fold(step, s, a + b) == Fold(step, Fold(step, s, a), b)
    decreases |a|
  {
    if a == [] {
      assert a + b == b;
    } else {
      assert (a + b)[1..] == a[1..] + b;
      FoldAppend(step, step(s, a[0]), a[1..], b);
    }
  }

  // How a word lies above the register: its top bit, the word without it, the
  // empty word, and the register with the word added.
  datatype Layout<!S> = Layout(top: S -> bool, rest: S -> S, empty: S, add: (S, S) -> S)

  ghost predicate Spells<S>(layout: Layout<S>, word: S, bits: seq<bool>)
    decreases |bits|
  {
    if bits == [] then word == layout.empty
    else layout.top(word) == bits[0] && Spells(layout, layout.rest(word), bits[1..])
  }

  // `n` words further down, when the register is read from the top.
  ghost function Rests<S>(layout: Layout<S>, word: S, n: nat): S {
    if n == 0 then word else layout.rest(Rests(layout, word, n - 1))
  }

  lemma {:induction false} SpellsFrom<S>(layout: Layout<S>, word: S, bits: seq<bool>, k: nat)
    requires k <= |bits| && Rests(layout, word, |bits|) == layout.empty
    requires forall i :: 0 <= i < |bits| ==> bits[i] == layout.top(Rests(layout, word, i))
    ensures Spells(layout, Rests(layout, word, k), bits[k..])
    decreases |bits| - k
  {
    if k < |bits| {
      SpellsFrom(layout, word, bits, k + 1);
      assert bits[k..][1..] == bits[k + 1..];
    }
  }

  // Adding a word and then stepping equals stepping with its top bit.
  ghost predicate Feeds<S(!new)>(step: (S, bool) -> S, layout: Layout<S>) {
    && (forall s {:trigger layout.add(s, layout.empty)} :: layout.add(s, layout.empty) == s)
    && (forall s, w {:trigger step(layout.add(s, w), false)} :: step(layout.add(s, w), false)
                    == layout.add(step(s, layout.top(w)), layout.rest(w)))
  }

  lemma {:induction false} FeedWord<S(!new)>(step: (S, bool) -> S, layout: Layout<S>,
                                             s: S, word: S, bits: seq<bool>)
    requires Feeds(step, layout) && Spells(layout, word, bits)
    ensures Shifts(step, layout.add(s, word), |bits|) == Fold(step, s, bits)
    decreases |bits|
  {
    if bits != [] {
      FeedWord(step, layout, step(s, bits[0]), layout.rest(word), bits[1..]);
    }
  }

  // Stepping back from related states relates the states before them, and shows
  // which bit was fed when those were equal; this works `depth` times.
  ghost predicate Traces<S(!new)>(step: (S, bool) -> S, related: (nat, S, S) -> bool, depth: nat) {
    && (forall s :: related(0, s, s))
    && (forall n: nat, s, s', b, b' :: n < depth && related(n, step(s, b), step(s', b')) ==>
          related(n + 1, s, s') && (s == s' ==> b == b'))
  }

  lemma {:induction false} SameEnd<S(!new)>(step: (S, bool) -> S, related: (nat, S, S) -> bool,
                                            depth: nat, s: S, s': S, u: seq<bool>, v: seq<bool>)
    requires Traces(step, related, depth) && |u| == |v| <= depth
    requires Fold(step, s, u) == Fold(step, s', v)
    ensures related(|u|, s, s')
    ensures s == s' ==> u == v
    decreases |u|
  {
    if u != [] {
      var n, b, b' := |u| - 1, u[0], v[0];
      SameEnd(step, related, depth, step(s, b), step(s', b'), u[1..], v[1..]);
      assert related(n, step(s, b), step(s', b')) ==> related(n + 1, s, s') && (s == s' ==> b == b');
      if s == s' {
        assert u == [u[0]] + u[1..] == [v[0]] + v[1..] == v;
      }
    }
  }

  ghost predicate Invertible<S(!new)>(step: (S, bool) -> S) {
    forall s, s', b :: step(s, b) == step(s', b) ==> s == s'
  }

  // The same bits never bring two states together.
  lemma {:induction false} SameBitsInjective<S(!new)>(step: (S, bool) -> S, s: S, s': S, bits: seq<bool>)
    requires Invertible(step) && s != s'
    ensures Fold(step, s, bits) != Fold(step, s', bits)
    decreases |bits|
  {
    if bits != [] {
      var b := bits[0];
      assert step(s, b) == step(s', b) ==> s == s';
      SameBitsInjective(step, step(s, b), step(s', b), bits[1..]);
    }
  }

  // Two messages that differ only within `depth` consecutive bits end apart.
  lemma BurstSeparates<S(!new)>(step: (S, bool) -> S, related: (nat, S, S) -> bool, depth: nat,
                                s: S, u: seq<bool>, v: seq<bool>, from: nat, to: nat)
    requires Traces(step, related, depth) && Invertible(step)
    requires |u| == |v| && from <= to <= |u| && to <= from + depth
    requires u != v && u[..from] == v[..from] && u[to..] == v[to..]
    ensures Fold(step, s, u) != Fold(step, s, v)
  {
    var before, w, w', after := u[..from], u[from..to], v[from..to], u[to..];
    assert u == before + (w + after) && v == before + (w' + after);
    FoldAppend(step, s, before, w + after);
    FoldAppend(step, s, before, w' + after);
    var start := Fold(step, s, before);
    FoldAppend(step, start, w, after);
    FoldAppend(step, start, w', after);
    if Fold(step, start, w) == Fold(step, start, w') {
      SameEnd(step, related, depth, start, start, w, w');
    }
    SameBitsInjective(step, Fold(step, start, w), Fold(step, start, w'), after);
  }
}
