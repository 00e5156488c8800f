/** There is always an identifier nobody has taken. */
module FreshIds {

  lemma FreshNat(taken: set<nat>)
    ensures exists n: nat :: n !in taken
  {
    if taken != {} {
      var top: nat :| top in taken && forall n :: n in taken ==> n <= top by {
        HasMaximum(taken);
      }
      assert top + 1 !in taken;
    } else {
      var zero: nat := 0;
      assert zero !in taken;
    }
  }

  lemma {:induction false} HasMaximum(taken: set<nat>)
    requires taken != {}
    ensures exists top: nat :: top in taken && forall n :: n in taken ==> n <= top
    decreases |taken|
  {
    var x :| x in taken;
    var rest := taken - {x};
    if rest == {} {
      assert taken == {x};
    } else {
      HasMaximum(rest);
      var top: nat :| top in rest && forall n :: n in rest ==> n <= top;
      var best := if x > top then x else top;
      assert best in taken && forall n :: n in taken ==> n in rest || n == x;
    }
  }
}
