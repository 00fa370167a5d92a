/** The Some/None wrapper that stands for a Java reference that may be null. */
module Options {
  datatype Option<+T> = None | Some(value: T)
}

/**
 * The six ball variants. The source has one ball class per (difficulty, size) pair
 * (EasySmallBallModel ... HardBigBallModel); each class only fixes a side length and a
 * randomness factor, so here a variant is a value and those two numbers are functions of it.
 */
module Variants {
  import opened Constants

  datatype Difficulty = Easy | Hard

  datatype SizeClass = Small | Medium | Big

  datatype Variant = Variant(difficulty: Difficulty, size: SizeClass) {

    /** The side length of a ball of this variant (60, 40 or 20 by size). */
    function SideLength(): (l: int)
      ensures l > 0
      ensures l == (if size == Big then 60 else if size == Medium then 40 else 20)
    {
      match size
      case Big => BigBallSideLength
      case Medium => MediumBallSideLength
      case Small => SmallBallSideLength
    }

    /** The randomness factor of a ball of this variant: 1 when easy, 2 when hard. */
    function RandomnessFactor(): (f: int)
      ensures f > 0
      ensures f == (if difficulty == Easy then 1 else 2)
    {
      match difficulty
      case Easy => EasyBallRandomnessFactor
      case Hard => HardBallRandomnessFactor
    }
  }

  /** The six pool keys, in the order the registry's constructor inserts them. */
  function AllVariants(): (vs: seq<Variant>)
    ensures |vs| == 6
  {
    [ Variant(Easy, Small), Variant(Easy, Medium), Variant(Easy, Big),
      Variant(Hard, Small), Variant(Hard, Medium), Variant(Hard, Big) ]
  }

  /** No element occurs twice in `s`. */
  predicate Distinct<T(==)>(s: seq<T>) {
    forall i, j :: 0 <= i < j < |s| ==> s[i] != s[j]
  }

  /** AllVariants lists every variant, each exactly once. */
  lemma AllVariantsEnumerates(v: Variant)
    ensures Distinct(AllVariants())
    ensures exists j :: 0 <= j < |AllVariants()| && AllVariants()[j] == v
  {
    var j := (if v.difficulty == Easy then 0 else 3)
           + (match v.size case Small => 0 case Medium => 1 case Big => 2);
    assert AllVariants()[j] == v;
  }

  lemma AllVariantsComplete()
    ensures forall v: Variant :: v in AllVariants()
  {
    forall v: Variant ensures v in AllVariants() {
      AllVariantsEnumerates(v);
    }
  }
}
