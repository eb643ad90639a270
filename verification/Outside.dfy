/**
 What the outside decides. At which moments a call fails or is refused, and at which an outside writer acts, is a
 function of the moment, given once and for all: the code can neither choose it nor see it coming.
 */
module Outside {

  /** Nothing goes wrong between these moments. */
  ghost predicate Quiet(trouble: nat -> bool, from: nat, until: nat) {
    forall k | from <= k < until :: !trouble(k)
  }

  lemma QuietParts(trouble: nat -> bool, from: nat, middle: nat, until: nat)
    requires from <= middle <= until
    ensures Quiet(trouble, from, until) <==> Quiet(trouble, from, middle) && Quiet(trouble, middle, until)
  {
  }

  /** How many of these moments are marked. */
  ghost function Marks(marked: nat -> bool, from: nat, until: nat): nat
    requires from <= until
    decreases until
  {
    if from == until then 0 else Marks(marked, from, until - 1) + if marked(until - 1) then 1 else 0
  }

  lemma {:induction false} MarksSplit(marked: nat -> bool, from: nat, middle: nat, until: nat)
    requires from <= middle <= until
    ensures Marks(marked, from, until) == Marks(marked, from, middle) + Marks(marked, middle, until)
    decreases until
  {
    if middle < until {
      MarksSplit(marked, from, middle, until - 1);
    }
  }

  lemma {:induction false} NotQuietIsMarked(marked: nat -> bool, from: nat, until: nat)
    requires from <= until && !Quiet(marked, from, until)
    ensures Marks(marked, from, until) >= 1
    decreases until
  {
    if !marked(until - 1) {
      NotQuietIsMarked(marked, from, until - 1);
    }
  }

  /** A number that is no name yet. */
  method Unused(names: set<nat>) returns (free: nat)
    ensures free !in names
  {
    free := 0;
    var rest := names;
    while rest != {}
      invariant rest <= names && forall n | n in names && n !in rest :: n < free
    {
      var n :| n in rest;
      free := if n < free then free else n + 1;
      rest := rest - {n};
    }
  }
}
