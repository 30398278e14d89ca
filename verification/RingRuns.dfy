/** Building executions step by step and joining them. */
module RingRuns {
  import opened Common
  import opened RingSystem
  import opened RingTheorems

  /** The execution that does nothing. */
  function Stay(s: State): Execution {
    Execution([s], [], [])
  }

  /** One more step. */
  lemma Extend(s0: State, ex: Execution, a: Action, s: State) returns (ex': Execution)
    requires ex.From(s0) && Step(ex.End(), a) == Some(s)
    ensures ex'.From(s0) && ex'.End() == s && ex'.acts == ex.acts + [a]
  {
    ex' := Execution(ex.states + [s], ex.acts + [a], ex.notes + [NoteOf(ex.End(), a, s)]);
    forall i | 0 <= i < |ex'.acts| ensures ex'.LinkAt(i) {
      if i < |ex.acts| { assert ex.LinkAt(i); }
    }
  }

  /** One execution after another. */
  lemma Join(s0: State, first: Execution, second: Execution) returns (ex: Execution)
    requires first.From(s0) && second.From(first.End())
    ensures ex.From(s0) && ex.End() == second.End() && ex.acts == first.acts + second.acts
    ensures ex.states[|first.acts|] == first.End()
  {
    ex := Execution(first.states + second.states[1..], first.acts + second.acts, first.notes + second.notes);
    var n := |first.acts|;
    forall i | 0 <= i < |ex.acts| ensures ex.LinkAt(i) {
      if i < n {
        assert first.LinkAt(i);
      } else {
        assert second.LinkAt(i - n);
        assert ex.states[i] == second.states[i - n] && ex.states[i + 1] == second.states[i - n + 1];
      }
    }
  }

  /** The first `n` steps of an execution. */
  function Prefix(ex: Execution, n: nat): Execution
    requires |ex.states| == |ex.acts| + 1 == |ex.notes| + 1 && n <= |ex.acts|
  {
    Execution(ex.states[..n + 1], ex.acts[..n], ex.notes[..n])
  }

  lemma PrefixIsValid(k: Config, ex: Execution, n: nat)
    requires ex.Valid(k) && n <= |ex.acts|
    ensures Prefix(ex, n).Valid(k) && Prefix(ex, n).End() == ex.states[n]
    ensures n < |ex.acts| ==> Step(ex.states[n], ex.acts[n]) == Some(ex.states[n + 1])
  {
    var before := Prefix(ex, n);
    forall i | 0 <= i < n ensures before.LinkAt(i) {
      assert ex.LinkAt(i);
    }
    assert n < |ex.acts| ==> ex.LinkAt(n);
  }
}
