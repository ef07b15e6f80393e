/** The two words of a garbage link (`Link` in src/collectible.rs), the first of which doubles as the
    reference count (src/ref_counted.rs), and the deferred closure, on mutable objects. */
module LinkCode {
  import opened Base
  import opened CountWord

  /** A pointer to garbage: the address, and the word that says what type is there.  Instances are
      aligned, so addresses are even. */
  datatype Fat = Fat(address: nat, vtable: nat)

  predicate Aligned(p: Fat) { 0 < p.address < MODULUS && !Odd(p.address) }

  class Link {
    var first: nat
    var second: nat

    constructor Shared()
      ensures first == 1 && second == 0
    {
      first, second := 1, 0;
    }

    constructor Unique()
      ensures first == 0 && second == 0
    {
      first, second := 0, 0;
    }

    /** What the two words mean as a pointer: the address decides. */
    function Next(): Option<Fat>
      reads this
    {
      if first == 0 then None else Some(Fat(first, second))
    }

    /** The address word alone decides whether there is a next instance. */
    method NextPtr() returns (next: Option<Fat>)
      ensures next == None <==> first == 0
      ensures next.Some? ==> next.value.address == first && next.value.vtable == second
    {
      next := if first == 0 then None else Some(Fat(first, second));
    }

    /** What is stored is read back, and the count word is even from now on. */
    method SetNextPtr(next: Option<Fat>)
      requires next.Some? ==> Aligned(next.value)
      modifies this
      ensures Next() == next && !Odd(first) && first < MODULUS
    {
      match next
      case None => first, second := 0, 0;
      case Some(p) => first, second := p.address, p.vtable;
    }

    /** Adds a reference unless the instance is retired. */
    method TryAddRef() returns (ok: bool)
      requires first < MODULUS
      modifies this`first
      ensures ok == Odd(old(first)) && first == if ok then Plus2(old(first)) else old(first)
    {
      ok := Odd(first);
      if ok { first := (first + 2) % MODULUS; }
    }

    /** Drops a reference and says whether it was the last. */
    method DropRef() returns (last: bool)
      modifies this`first
      ensures last == (old(first) == 1) && first == Minus2(old(first))
    {
      var current := first;
      first := if current >= 2 then current - 2 else 0;
      last := current == 1;
    }
  }

  /** A closure to be run when its instance is dropped (`DeferredClosure`). */
  class DeferredClosure {
    var f: Option<nat>
    /** The closures run so far. */
    ghost var ran: seq<nat>

    constructor (f: nat)
      ensures this.f == Some(f) && ran == []
    {
      this.f, ran := Some(f), [];
    }

    /** Runs the closure, once. */
    method Drop()
      modifies this
      ensures f == None && ran == old(ran) + if old(f).Some? then [old(f).value] else []
    {
      if f.Some? {
        ran := ran + [f.value];
        f := None;
      }
    }
  }
}
