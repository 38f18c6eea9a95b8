/** The power-of-two ring buffer behind the ready queue and the cross-thread inbox. */
module ReadyRing {
  import opened Options

  function Pow2(k: nat): (r: nat)
    ensures r >= 1
  {
    if k == 0 then 1 else 2 * Pow2(k - 1)
  }

  ghost predicate IsPowerOfTwo(n: nat) {
    exists k: nat :: n == Pow2(k)
  }

  /** The machine's bitwise `&` on unsigned words, one bit at a time. */
  function BitAnd(x: nat, y: nat): nat {
    if x == 0 || y == 0 then 0
    else 2 * BitAnd(x / 2, y / 2) + (if x % 2 == 1 && y % 2 == 1 then 1 else 0)
  }

  /** Masking with `capacity - 1` is reduction modulo a power-of-two capacity. */
  lemma {:induction false} MaskIsModulo(x: nat, k: nat)
    ensures BitAnd(x, Pow2(k) - 1) == x % Pow2(k)
    decreases k
  {
    if k == 0 || x == 0 {
      NothingToMask(x, Pow2(k));
    } else {
      hide BitAnd;
      MaskIsModulo(x / 2, k - 1);
      OneMoreBit(x, Pow2(k - 1));
    }
  }

  lemma NothingToMask(x: nat, m: nat)
    requires m == 1 || (m > 1 && x == 0)
    ensures BitAnd(x, m - 1) == x % m
  {
  }

  lemma OneMoreBit(x: nat, half: nat)
    requires half > 0 && BitAnd(x / 2, half - 1) == (x / 2) % half
    ensures BitAnd(x, 2 * half - 1) == x % (2 * half)
  {
    hide BitAnd;
    MaskHalves(x, half);
    HalveModulo(x, half);
  }

  /** The lowest bit of a mask is set, and the rest is the mask of half the size. */
  lemma MaskHalves(x: nat, half: nat)
    requires half > 0
    ensures BitAnd(x, 2 * half - 1) == 2 * BitAnd(x / 2, half - 1) + x % 2
  {
    assert (2 * half - 1) / 2 == half - 1 && (2 * half - 1) % 2 == 1;
  }

  lemma HalveModulo(x: nat, half: nat)
    requires half > 0
    ensures x % (2 * half) == 2 * ((x / 2) % half) + x % 2
  {
    var q, r := (x / 2) / half, (x / 2) % half;
    assert x == (2 * half) * q + (2 * r + x % 2) by {
      assert x / 2 == half * q + r;
    }
    ModuloUnique(x, 2 * half, q, 2 * r + x % 2);
  }

  lemma ModuloUnique(x: int, m: nat, q: int, r: int)
    requires m > 0 && x == m * q + r && 0 <= r < m
    ensures x % m == r
  {
    var d := q - x / m;
    assert m * d == x % m - r;
    assert d >= 1 ==> m * d >= m;
    assert d <= -1 ==> m * d + m <= 0;
  }

  lemma DoubledPowerOfTwo(n: nat)
    requires IsPowerOfTwo(n)
    ensures IsPowerOfTwo(2 * n)
  {
    var k: nat :| n == Pow2(k);
    assert 2 * n == Pow2(k + 1);
  }

  /** The slot the `i`-th queued element occupies; wraps at most once. */
  function Slot(head: nat, i: nat, capacity: nat): (slot: nat)
    requires head < capacity && i <= capacity
    ensures slot < capacity && slot == (head + i) % capacity
  {
    if head + i < capacity then head + i else
      ModuloUnique(head + i, capacity, 1, head + i - capacity);
      head + i - capacity
  }

  class Ready<T(0)> {
    var items: array<T>
    var head: nat
    var len: nat
    /** The queue this ring stands for, oldest element first. */
    ghost var queue: seq<T>

    ghost predicate Valid()
      reads this, items
    {
      && len == |queue| <= items.Length
      && (items.Length == 0 || IsPowerOfTwo(items.Length))
      && (if items.Length == 0 then head == 0 else head < items.Length)
      && forall i :: 0 <= i < len ==> queue[i] == items[Slot(head, i, items.Length)]
    }

    constructor ()
      ensures Valid() && fresh(items) && queue == []
    {
      items := new T[0];
      head, len, queue := 0, 0, [];
    }

    /** Masked indexing, as the source computes it. */
    function Masked(i: nat): (slot: nat)
      requires items.Length > 0 && IsPowerOfTwo(items.Length)
      requires head < items.Length && i <= items.Length
      reads this
      ensures slot == Slot(head, i, items.Length)
    {
      ghost var k: nat :| items.Length == Pow2(k);
      MaskIsModulo(head + i, k);
      BitAnd(head + i, items.Length - 1)
    }

    method Push(item: T)
      requires Valid()
      modifies this, items
      ensures Valid() && (items == old(items) || fresh(items))
      ensures queue == old(queue) + [item]
    {
      EnsureUnusedCapacity(1);
      PushAssumeCapacity(item);
    }

    method EnsureUnusedCapacity(additional: nat)
      requires Valid()
      modifies this
      ensures Valid() && (items == old(items) || fresh(items))
      ensures queue == old(queue) && additional <= items.Length - len
      ensures additional <= old(items.Length - len) ==> items == old(items)
    {
      if additional <= items.Length - len { return; }
      var newCap := if items.Length == 0 then 64 else items.Length;
      assert IsPowerOfTwo(newCap) by { assert Pow2(6) == 64; }
      var needed := len + additional;
      while newCap < needed
        invariant newCap > 0 && IsPowerOfTwo(newCap) && len <= newCap
        invariant Valid() && unchanged(this)
        decreases needed - newCap
      {
        DoubledPowerOfTwo(newCap);
        newCap := newCap * 2;
      }
      Grow(newCap);
    }

    method PushAssumeCapacity(item: T)
      requires Valid() && len < items.Length
      modifies this`len, this`queue, items
      ensures Valid() && queue == old(queue) + [item]
    {
      items[Masked(len)] := item;
      len := len + 1;
      queue := queue + [item];
    }

    method Pop() returns (item: Option<T>)
      requires Valid()
      modifies this`head, this`len, this`queue
      ensures Valid()
      ensures if old(queue) == [] then item == None && queue == []
              else item == Some(old(queue)[0]) && queue == old(queue)[1..]
    {
      if len == 0 { return None; }
      item := Some(items[head]);
      head := Masked(1);
      len := len - 1;
      queue := queue[1..];
    }

    method Grow(newCap: nat)
      requires Valid() && len <= newCap && newCap > 0 && IsPowerOfTwo(newCap)
      modifies this`items, this`head
      ensures Valid() && fresh(items) && items.Length == newCap
    {
      var newItems := new T[newCap];
      var i := 0;
      while i < len
        invariant 0 <= i <= len
        invariant forall j :: 0 <= j < i ==> newItems[j] == queue[j]
        invariant Valid() && items == old(items) && fresh(newItems)
      {
        newItems[i] := items[Masked(i)];
        i := i + 1;
      }
      items := newItems;
      head := 0;
    }
  }

  /** Moves every element of one queue to the back of another that has room for them. */
  method MoveAll<T(0)>(from: Ready<T>, to: Ready<T>)
    requires from.Valid() && to.Valid() && from != to && from.items != to.items
    requires from.len <= to.items.Length - to.len
    modifies from`head, from`len, from`queue, to`len, to`queue, to.items
    ensures from.Valid() && to.Valid()
    ensures to.queue == old(to.queue + from.queue) && from.queue == []
  {
    while from.len != 0
      invariant from.Valid() && to.Valid()
      invariant from.len <= to.items.Length - to.len
      invariant to.queue + from.queue == old(to.queue + from.queue)
      decreases from.len
    {
      var item := from.Pop();
      to.PushAssumeCapacity(item.value);
    }
  }
}
