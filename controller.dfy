/** The neurons of controller.py: a weighted sum of inputs, with the
    weights (the "genome") replaceable. The controller around them is an
    empty shell that only remembers its character. */
module Controller {
  import Game

  /** The weighted sum of the inputs `v` under the weights `w`, first
      input first. Weights beyond the inputs are ignored. */
  function Dot(w: seq<real>, v: seq<real>): (r: real)
    requires |w| >= |v|
    decreases |v|
  {
    if v == [] then 0.0 else w[0] * v[0] + Dot(w[1..], v[1..])
  }

  /** One more input adds its weighted value: the step the accumulation
      loop takes. */
  lemma {:induction false} DotSnoc(w: seq<real>, v: seq<real>, e: real)
    requires |w| > |v|
    ensures Dot(w, v + [e]) == Dot(w, v) + w[|v|] * e
    decreases |v|
  {
    if v == [] {
      assert Dot(w[1..], []) == 0.0;
    } else {
      assert (v + [e])[1..] == v[1..] + [e];
      DotSnoc(w[1..], v[1..], e);
    }
  }

  /** Only the first `|v|` weights matter. */
  lemma {:induction false} DotIgnoresExtraWeights(w: seq<real>, v: seq<real>)
    requires |w| >= |v|
    ensures Dot(w, v) == Dot(w[..|v|], v)
    decreases |v|
  {
    if v != [] {
      assert w[..|v|][1..] == w[1..][..|v| - 1];
      DotIgnoresExtraWeights(w[1..], v[1..]);
    }
  }

  /** The sum is additive in the inputs: summing `a + b` is summing `a`
      under the first weights and `b` under the ones after them. */
  lemma {:induction false} DotConcat(w: seq<real>, a: seq<real>, b: seq<real>)
    requires |w| >= |a| + |b|
    ensures Dot(w, a + b) == Dot(w, a) + Dot(w[|a|..], b)
    decreases |a|
  {
    if a == [] {
      assert a + b == b;
      assert w[0..] == w;
    } else {
      assert (a + b)[1..] == a[1..] + b;
      assert w[1..][|a| - 1..] == w[|a|..];
      DotConcat(w[1..], a[1..], b);
    }
  }

  /** A neuron: where its inputs come from, where its output goes, its
      weights, and the value it will send. */
  class Neuron<E, O> {
    var entry: E
    var output: O
    var W: seq<real>
    var toBeSent: real

    /** `Neuron.__init__`: nothing to send yet. */
    constructor (entry: E, output: O, w: seq<real>)
      ensures this.entry == entry && this.output == output && W == w && toBeSent == 0.0
    {
      this.entry, this.output, W := entry, output, w;
      toBeSent := 0.0;
    }

    /** `update(v)`: the value to send is reset to 0 and then accumulates
        the inputs one by one, each times its weight. With a weight for every
        input the result is the weighted sum of `v`, whatever the value was
        before. An input without a weight makes Python's indexing raise
        `IndexError`; `ok` is false then, and the value to send keeps the
        partial sum of the inputs that had weights. Only the value to send
        changes. */
    method Update(v: seq<real>) returns (ok: bool)
      modifies this`toBeSent
      ensures ok <==> |W| >= |v|
      ensures ok ==> toBeSent == Dot(W, v)
      ensures !ok ==> toBeSent == Dot(W, v[..|W|])
    {
      toBeSent := 0.0;
      var x := 0;
      while x < |v|
        invariant 0 <= x <= |v| && x <= |W|
        invariant toBeSent == Dot(W, v[..x])
      {
        if x == |W| {
          return false;
        }
        DotSnoc(W, v[..x], v[x]);
        assert v[..x + 1] == v[..x] + [v[x]];
        toBeSent := toBeSent + W[x] * v[x];
        x := x + 1;
      }
      assert v[..x] == v;
      return true;
    }

    /** `set_genome(w)`: the weights become `w`; nothing else changes. */
    method SetGenome(w: seq<real>)
      modifies this`W
      ensures W == w
    {
      W := w;
    }
  }

  /** `Controller.__init__`: no entry read yet, and the character it drives. */
  class Controller {
    var currentEntry: seq<real>
    const character: Game.GameObject

    constructor (character: Game.GameObject)
      ensures currentEntry == [] && this.character == character
    {
      currentEntry := [];
      this.character := character;
    }
  }
}
