/**
 Vocabulary shared by every component model.
 */
module Common {

  datatype Option<+T> = None | Some(value: T)

  /** One octet of terminal traffic. */
  type Byte = x: int | 0 <= x < 256

  lemma Assoc<T>(a: seq<T>, b: seq<T>, c: seq<T>)
    ensures (a + b) + c == a + (b + c)
  {
  }

  /** The input at an index leads from its state to the next one, with an output. */
  ghost predicate Link<S, I, O>(step: (S, I, S, O) -> bool, inputs: seq<I>, states: seq<S>, outputs: seq<O>, i: nat) {
    i < |inputs| && i < |outputs| && i + 1 < |states| && step(states[i], inputs[i], states[i + 1], outputs[i])
  }

  /** States linked by inputs, in order. */
  ghost predicate Chain<S, I, O>(step: (S, I, S, O) -> bool, inputs: seq<I>, states: seq<S>, outputs: seq<O>) {
    && |states| == |outputs| + 1 && |outputs| <= |inputs|
    && (forall i :: 0 <= i < |outputs| ==> Link(step, inputs, states, outputs, i))
  }

  lemma ChainAt<S, I, O>(step: (S, I, S, O) -> bool, inputs: seq<I>, states: seq<S>, outputs: seq<O>, i: nat)
    requires Chain(step, inputs, states, outputs) && i < |outputs|
    ensures step(states[i], inputs[i], states[i + 1], outputs[i])
  {
    assert Link(step, inputs, states, outputs, i);
  }

  lemma ChainExtends<S, I, O>(step: (S, I, S, O) -> bool, inputs: seq<I>, states: seq<S>, outputs: seq<O>, next: S, output: O)
    requires Chain(step, inputs, states, outputs) && |outputs| < |inputs|
    requires step(states[|outputs|], inputs[|outputs|], next, output)
    ensures Chain(step, inputs, states + [next], outputs + [output])
  {
    var more, out := states + [next], outputs + [output];
    forall i | 0 <= i < |out| ensures Link(step, inputs, more, out, i) {
      if i < |outputs| {
        ChainAt(step, inputs, states, outputs, i);
      }
    }
  }
}
