/** Epoch values (src/epoch.rs).  The global epoch is stored modulo 64; `Wrap` relates the stored
    value to the unbounded epoch it stands for. */
module Epochs {
  type Epoch = e: nat | e < 64

  function Next(e: Epoch): Epoch { (e + 1) % 64 }

  function Prev(e: Epoch): Epoch { (e + 63) % 64 }

  /** The first epoch value in which no reader of the given epoch can be left. */
  function NextGeneration(e: Epoch): Epoch { Next(Next(Next(e))) }

  predicate InSameGeneration(e: Epoch, other: Epoch) {
    other == e || other == Next(e) || other == Next(Next(e))
  }

  function Wrap(g: nat): Epoch { g % 64 }

  lemma NextPrevInverse(e: Epoch)
    ensures Next(Prev(e)) == e && Prev(Next(e)) == e
  {}

  /** `Next` on stored values is `+ 1` on unbounded ones. */
  lemma WrapNext(g: nat)
    ensures Wrap(g + 1) == Next(Wrap(g))
  {}

  /** Two unbounded epochs less than 64 apart are equal exactly when their stored values are. */
  lemma WrapExact(g: nat, h: nat)
    requires g <= h < g + 64
    ensures Wrap(g) == Wrap(h) <==> g == h
  {}

  /** As long as fewer than 64 epochs have passed, "same generation" on stored values says exactly
      that at most two epochs have passed; afterwards it may only answer `true` too often. */
  lemma SameGenerationExact(g: nat, h: nat)
    requires g <= h
    ensures h <= g + 2 ==> InSameGeneration(Wrap(g), Wrap(h))
    ensures h < g + 64 ==> (InSameGeneration(Wrap(g), Wrap(h)) <==> h <= g + 2)
    ensures !InSameGeneration(Wrap(g), Wrap(h)) ==> h >= g + 3
  {}

  /** The next generation is the first one: it is outside the generation of `e`, and of the
      values between, none is. */
  lemma NextGenerationIsFirst(g: nat, h: nat)
    requires g <= h <= g + 3
    ensures NextGeneration(Wrap(g)) == Wrap(g + 3)
    ensures InSameGeneration(Wrap(g), Wrap(h)) <==> h != g + 3
  {
    WrapNext(g);
    WrapNext(g + 1);
    WrapNext(g + 2);
    WrapExact(g, h);
    WrapExact(h, g + 3);
    hide Wrap, Next;
  }
}
