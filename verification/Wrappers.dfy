/** Option, used wherever the bridge stores an optional value, and new numbers. */
module Wrappers {
  datatype Option<+T> = None | Some(value: T)

  /** Some number is not used yet. */
  lemma Unused(used: set<nat>) returns (n: nat)
    ensures n !in used
  {
    if used == {} {
      n := 0;
    } else {
      var top := Largest(used);
      n := top + 1;
    }
  }

  lemma Largest(used: set<nat>) returns (top: nat)
    requires used != {}
    ensures top in used && forall n :: n in used ==> n <= top
    decreases used
  {
    top :| top in used;
    var rest := used - {top};
    assert used == rest + {top};
    if rest != {} {
      var other := Largest(rest);
      top := if other < top then top else other;
    }
  }
}
