/** What several modules share: optional values and two facts about finite sets. */
module Basics {
  datatype Option<+T> = None | Some(value: T)

  lemma {:induction false} SubsetSize<T>(a: set<T>, b: set<T>)
    requires a <= b
    ensures |a| <= |b| && (|a| == |b| ==> a == b)
    decreases |a|
  {
    if a != {} {
      var x :| x in a;
      SubsetSize(a - {x}, b - {x});
      assert a == (a - {x}) + {x} && b == (b - {x}) + {x};
    } else if b != {} {
      var x :| x in b;
      assert |b| == |b - {x}| + 1;
    }
  }

  lemma {:induction false} LeastNumber(s: set<nat>) returns (least: nat)
    requires s != {}
    ensures least in s && forall j :: j in s ==> least <= j
    decreases |s|
  {
    var any :| any in s;
    least := any;
    var rest := s - {any};
    assert forall j :: j in s ==> j == any || j in rest;
    if rest != {} {
      var k := LeastNumber(rest);
      least := if any < k then any else k;
    }
  }
}
